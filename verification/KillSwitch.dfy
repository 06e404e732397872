/**
  The kill switch over the stored runs (`kill_switch_runs`, agents/agent_run_manager.py): a listing of the
  running runs, one of the queued runs, a scope filter and one cancelling transaction. The two listings
  and the transaction are three database calls, so they may see three different tables.
 */
module KillSwitch {
  import opened Common
  import opened RunProtocol

  /** Who is to be cancelled; an empty user or agent means "any", an empty `exclude` means nobody is spared. */
  datatype Scope = Scope(running: bool, queued: bool, limit: int, user: string, agent: string, exclude: RunId)
  {
    /** At least one run and at most 50000. */
    function Limit(): (n: nat)
      ensures 1 <= n <= 50000 && (n < limit ==> n == 50000) && (limit < n ==> n == 1)
    {
      Max(1, Min(limit, 50000))
    }

    predicate Covers(r: RunId, run: Run) {
      && (exclude == "" || r != exclude)
      && (user == "" || run.user == user)
      && (agent == "" || run.agent == agent)
    }
  }

  datatype Summary = Rejected | Summary(targets: seq<RunId>, canceledRunning: nat, canceledQueued: nat)

  /** The stored runs, and their ids newest first. */
  datatype Table = Table(order: seq<RunId>, runs: map<RunId, Run>)
  {
    predicate HasStatus(r: RunId, status: Status) { r in runs && runs[r].status == status }
  }

  predicate Distinct(ids: seq<RunId>) { forall i, j | 0 <= i < j < |ids| :: ids[i] != ids[j] }

  /** The order lists every stored run once. */
  predicate Proper(t: Table) {
    Distinct(t.order) && (forall r | r in t.order :: r in t.runs) && (forall r | r in t.runs :: r in t.order)
  }

  /** `list_agent_runs(status=..., limit=...)`: the newest `limit` runs with that status, of any owner. */
  function Listed(t: Table, status: Status, limit: nat): (ids: seq<RunId>)
    ensures |ids| <= limit
    ensures forall r | r in ids :: r in t.order && t.HasStatus(r, status)
  {
    var all := Filter(t.order, r => t.HasStatus(r, status));
    FilterMembers(t.order, r => t.HasStatus(r, status));
    assert forall r | r in all[..Min(limit, |all|)] :: r in all;
    all[..Min(limit, |all|)]
  }

  function InScope(ids: seq<RunId>, t: Table, scope: Scope): seq<RunId> {
    Filter(ids, r => r in t.runs && scope.Covers(r, t.runs[r]))
  }

  function Selected(t: Table, status: Status, scope: Scope): seq<RunId> {
    InScope(Listed(t, status, scope.Limit()), t, scope)
  }

  /** The ids not found before. */
  function Unseen(ids: seq<RunId>, found: seq<RunId>): seq<RunId> { Filter(ids, r => r !in found) }

  /** The ids the kill switch goes on to cancel: running ones as first listed, then queued ones as listed next. */
  function Targets(first: Table, second: Table, scope: Scope): seq<RunId> {
    var found := if scope.running then Selected(first, Running, scope) else [];
    found + if scope.queued then Unseen(Selected(second, Queued, scope), found) else []
  }

  function Elements(ids: seq<RunId>): set<RunId> { set r | r in ids }

  /** The ids listed before `r`. */
  function Ahead(order: seq<RunId>, r: RunId): seq<RunId> {
    if order == [] || order[0] == r then [] else [order[0]] + Ahead(order[1..], r)
  }

  /** Runs created after `r` that have the given status, whoever owns them. */
  function Newer(t: Table, r: RunId, status: Status): nat { Count(Ahead(t.order, r), id => t.HasStatus(id, status)) }

  /** A listing reaches the run: right status, in scope, and not crowded out by newer runs of that status. */
  predicate Reaches(t: Table, status: Status, scope: Scope, r: RunId) {
    t.HasStatus(r, status) && scope.Covers(r, t.runs[r]) && Newer(t, r, status) < scope.Limit()
  }

  lemma {:induction false} FilterDistinct(ids: seq<RunId>, p: RunId -> bool)
    requires Distinct(ids)
    ensures Distinct(Filter(ids, p))
  {
    if ids != [] {
      FilterDistinct(Init(ids), p);
      FilterMembers(Init(ids), p);
    }
  }

  /** An element survives the cut of a filtered list exactly when few enough kept elements precede it. */
  lemma {:induction false} TakeOfFilter(ids: seq<RunId>, p: RunId -> bool, limit: nat, k: nat)
    requires Distinct(ids) && k < |ids| && p(ids[k])
    ensures var kept := Filter(ids, p);
            ids[k] in kept[..Min(limit, |kept|)] <==> Count(ids[..k], p) < limit
  {
    var head, kept := ids[..k], Filter(ids, p);
    assert ids == head + [ids[k]] + ids[k + 1..];
    FilterConcat(head + [ids[k]], ids[k + 1..], p);
    FilterSnoc(head, ids[k], p);
    FilterDistinct(ids, p);
    var at := |Filter(head, p)|;
    assert kept[at] == ids[k];
    assert forall i | 0 <= i < |kept| && i != at :: kept[i] != ids[k];
    if at < limit {
      assert kept[..Min(limit, |kept|)][at] == ids[k];
    }
  }

  lemma {:induction false} AheadIsPrefix(order: seq<RunId>, r: RunId) returns (k: nat)
    requires r in order
    ensures k < |order| && order[k] == r && Ahead(order, r) == order[..k]
  {
    if order[0] == r {
      k := 0;
    } else {
      k := AheadIsPrefix(order[1..], r);
      k := k + 1;
      assert order[..k] == [order[0]] + order[1..][..k - 1];
    }
  }

  /** The listing is cut before the scope is applied, so runs of other owners count against the limit. */
  lemma SelectedIff(t: Table, status: Status, scope: Scope, r: RunId)
    requires Proper(t)
    ensures r in Selected(t, status, scope) <==> Reaches(t, status, scope, r)
  {
    var ids := Listed(t, status, scope.Limit());
    FilterMembers(ids, r => r in t.runs && scope.Covers(r, t.runs[r]));
    if t.HasStatus(r, status) {
      var k := AheadIsPrefix(t.order, r);
      TakeOfFilter(t.order, r => t.HasStatus(r, status), scope.Limit(), k);
    }
  }

  lemma TargetsIff(first: Table, second: Table, scope: Scope, r: RunId)
    requires Proper(first) && Proper(second)
    ensures r in Targets(first, second, scope) <==>
              || (scope.running && Reaches(first, Running, scope, r))
              || (scope.queued && Reaches(second, Queued, scope, r))
  {
    SelectedIff(first, Running, scope, r);
    SelectedIff(second, Queued, scope, r);
    var found := if scope.running then Selected(first, Running, scope) else [];
    FilterMembers(Selected(second, Queued, scope), r => r !in found);
  }

  lemma KilledRowDiffers(run: Run)
    ensures KilledRow(run) != run <==> run.status in {Queued, Running}
  {
  }

  /**
    The table after the transaction differs from the one it met in a run if and only if the run is still
    queued or running and one of the two listings had reached it.
   */
  lemma KilledIff(first: Table, second: Table, later: Table, scope: Scope, r: RunId)
    requires Proper(first) && Proper(second) && r in later.runs
    ensures KilledAll(later.runs, Elements(Targets(first, second, scope)))[r] != later.runs[r] <==>
              && later.runs[r].status in {Queued, Running}
              && (|| (scope.running && Reaches(first, Running, scope, r))
                  || (scope.queued && Reaches(second, Queued, scope, r)))
  {
    TargetsIff(first, second, scope, r);
    KilledRowDiffers(later.runs[r]);
  }

  /** With no write in between: exactly the active runs of a selected status that the listing reaches. */
  lemma KillReaches(t: Table, scope: Scope, r: RunId)
    requires Proper(t) && r in t.runs
    ensures var run := t.runs[r];
            KilledAll(t.runs, Elements(Targets(t, t, scope)))[r] != run <==>
              && ((run.status == Running && scope.running) || (run.status == Queued && scope.queued))
              && (scope.exclude == "" || r != scope.exclude)
              && (scope.user == "" || run.user == scope.user) && (scope.agent == "" || run.agent == scope.agent)
              && Newer(t, r, run.status) < scope.Limit()
  {
    KilledIff(t, t, t, scope, r);
  }

  /** A run that no limit or scope shuts out, active at all three calls. */
  predicate Exposed(first: Table, second: Table, later: Table, scope: Scope, r: RunId) {
    && r in first.runs && r in second.runs && r in later.runs
    && first.runs[r].status in {Queued, Running} && second.runs[r].status in {Queued, Running}
    && later.runs[r].status in {Queued, Running}
    && scope.Covers(r, first.runs[r]) && scope.Covers(r, second.runs[r])
    && Newer(first, r, Running) < scope.Limit() && Newer(second, r, Queued) < scope.Limit()
  }

  /** A switch over everything misses an exposed run if and only if the run starts between the two listings. */
  lemma EscapesIff(first: Table, second: Table, later: Table, scope: Scope, r: RunId)
    requires Proper(first) && Proper(second) && Exposed(first, second, later, scope, r)
    requires scope.running && scope.queued
    ensures KilledAll(later.runs, Elements(Targets(first, second, scope)))[r] == later.runs[r] <==>
              first.runs[r].status == Queued && second.runs[r].status == Running
  {
    KilledIff(first, second, later, scope, r);
  }

  /** A switch over queued runs only cancels an exposed running run if and only if it was still queued when listed. */
  lemma RunningRunKilledIff(first: Table, second: Table, later: Table, scope: Scope, r: RunId)
    requires Proper(first) && Proper(second) && Exposed(first, second, later, scope, r)
    requires !scope.running && scope.queued && later.runs[r].status == Running
    ensures KilledAll(later.runs, Elements(Targets(first, second, scope)))[r] != later.runs[r] <==>
              second.runs[r].status == Queued
  {
    KilledIff(first, second, later, scope, r);
  }

  // ---- The kill switch of a budget escalation ----

  /** What an escalating run asks for; a blank user or agent widens the scope to everybody's. */
  function EscalationScope(trigger: RunId, run: Run): Scope { Scope(true, true, 5000, run.user, run.agent, trigger) }

  predicate SharesScope(run: Run, other: Run) {
    (run.user == "" || other.user == run.user) && (run.agent == "" || other.agent == run.agent)
  }

  /** What an escalation goes on to cancel, by what its two listings saw. */
  function EscalationTargets(s: State, t: Token, first: Table, second: Table): set<RunId>
    requires s.InFlight(t)
  {
    var trigger := s.workers[t].run;
    Elements(Targets(first, second, EscalationScope(trigger, s.runs[trigger])))
  }

  /** A listing of an escalation reaches the run. */
  predicate Endangered(table: Table, status: Status, trigger: Run, r: RunId) {
    table.HasStatus(r, status) && SharesScope(trigger, table.runs[r]) && Newer(table, r, status) < 5000
  }

  /** Runs are never deleted, so what a listing saw is still stored when the transaction comes. */
  predicate Succeed(first: Table, second: Table, s: State) {
    Proper(first) && Proper(second) && first.runs.Keys <= s.runs.Keys && second.runs.Keys <= s.runs.Keys
  }

  lemma EscalationReachesIff(first: Table, second: Table, trigger: RunId, run: Run, r: RunId)
    requires Proper(first) && Proper(second) && trigger != ""
    ensures r in Targets(first, second, EscalationScope(trigger, run)) <==>
              r != trigger && (Endangered(first, Running, run, r) || Endangered(second, Queued, run, r))
  {
    TargetsIff(first, second, EscalationScope(trigger, run), r);
  }

  lemma EscalationEnabled(s: State, t: Token, first: Table, second: Table)
    requires s.InFlight(t) && s.workers[t].phase.ScopeKilling? && s.workers[t].run != "" && Succeed(first, second, s)
    ensures Enabled(s, Escalate(t, EscalationTargets(s, t, first, second)))
  {
    var trigger := s.workers[t].run;
    var scope := EscalationScope(trigger, s.runs[trigger]);
    forall r | r in Targets(first, second, scope) ensures r in s.runs && r != trigger {
      EscalationReachesIff(first, second, trigger, s.runs[trigger], r);
    }
  }

  /**
    Whatever is written between its two listings and its transaction: after an escalation a run has changed
    if and only if it is still queued or running, is not the trigger, and one of the listings had reached
    it: with the status of that listing, sharing user and agent with the trigger, and with fewer than 5000
    newer runs of that status.
   */
  lemma EscalationKills(s: State, t: Token, first: Table, second: Table, r: RunId)
    requires s.InFlight(t) && s.workers[t].phase.ScopeKilling? && s.workers[t].run != ""
    requires Succeed(first, second, s) && r in s.runs
    ensures var trigger, targets := s.workers[t].run, EscalationTargets(s, t, first, second);
            && Enabled(s, Escalate(t, targets))
            && (Apply(s, Escalate(t, targets)).runs[r] != s.runs[r] <==>
                  && s.runs[r].status in {Queued, Running} && r != trigger
                  && (|| Endangered(first, Running, s.runs[trigger], r)
                      || Endangered(second, Queued, s.runs[trigger], r)))
  {
    EscalationEnabled(s, t, first, second);
    EscalationReachesIff(first, second, s.workers[t].run, s.runs[s.workers[t].run], r);
    KilledRowDiffers(s.runs[r]);
  }

  /** A run cannot be crowded out while no more runs have its status than the limit allows. */
  lemma FewAreAllReached(t: Table, r: RunId, status: Status, limit: nat)
    requires Proper(t) && t.HasStatus(r, status)
    requires Count(t.order, id => t.HasStatus(id, status)) <= limit
    ensures Newer(t, r, status) < limit
  {
    var p := (id: RunId) => t.HasStatus(id, status);
    var k := AheadIsPrefix(t.order, r);
    assert t.order == t.order[..k] + [r] + t.order[k + 1..];
    FilterConcat(t.order[..k] + [r], t.order[k + 1..], p);
    FilterSnoc(t.order[..k], r, p);
  }

  /** No more runs have the status than an escalation lists. */
  predicate Few(t: Table, status: Status) { Count(t.order, id => t.HasStatus(id, status)) <= 5000 }

  /** The run is in the table, queued or running, and is owned as `run` is. */
  predicate ActiveAs(t: Table, r: RunId, run: Run) {
    && r in t.runs && t.runs[r].status in {Queued, Running}
    && t.runs[r].user == run.user && t.runs[r].agent == run.agent
  }

  lemma FewAreEndangered(t: Table, status: Status, trigger: Run, r: RunId)
    requires Proper(t) && Few(t, status)
    ensures Endangered(t, status, trigger, r) <==> t.HasStatus(r, status) && SharesScope(trigger, t.runs[r])
  {
    if t.HasStatus(r, status) {
      FewAreAllReached(t, r, status, 5000);
    }
  }

  lemma FewAreReachedIff(first: Table, second: Table, trigger: Run, r: RunId, run: Run)
    requires Proper(first) && Few(first, Running) && Proper(second) && Few(second, Queued)
    requires ActiveAs(first, r, run) && ActiveAs(second, r, run)
    ensures Endangered(first, Running, trigger, r) || Endangered(second, Queued, trigger, r) <==>
              SharesScope(trigger, run) && !(first.runs[r].status == Queued && second.runs[r].status == Running)
  {
    FewAreEndangered(first, Running, trigger, r);
    FewAreEndangered(second, Queued, trigger, r);
  }

  /**
    While at most 5000 runs are running at the first listing and queued at the second, an escalation cancels
    a run that stays active if and only if it is in scope, is not the trigger, and does not start in between.
   */
  lemma EscalationKillsAll(s: State, t: Token, first: Table, second: Table, r: RunId)
    requires s.InFlight(t) && s.workers[t].phase.ScopeKilling? && s.workers[t].run != ""
    requires Succeed(first, second, s) && Few(first, Running) && Few(second, Queued)
    requires r in s.runs && s.runs[r].status in {Queued, Running}
    requires ActiveAs(first, r, s.runs[r]) && ActiveAs(second, r, s.runs[r])
    ensures var trigger, targets := s.workers[t].run, EscalationTargets(s, t, first, second);
            && Enabled(s, Escalate(t, targets))
            && (Apply(s, Escalate(t, targets)).runs[r].status == Canceled <==>
                  && SharesScope(s.runs[trigger], s.runs[r]) && r != trigger
                  && !(first.runs[r].status == Queued && second.runs[r].status == Running))
  {
    EscalationKills(s, t, first, second, r);
    FewAreReachedIff(first, second, s.runs[s.workers[t].run], r, s.runs[r]);
  }

  // ---- The operation ----

  function CountStatus(ids: seq<RunId>, runs: map<RunId, Run>, status: Status): nat {
    Count(ids, r => r in runs && runs[r].status == status)
  }

  lemma KilledOneMore(runs: map<RunId, Run>, done: seq<RunId>, r: RunId)
    requires r in runs && r !in done
    ensures KilledAll(runs, Elements(done))[r] == runs[r]
    ensures KilledAll(runs, Elements(done + [r])) == KilledAll(runs, Elements(done))[r := KilledRow(runs[r])]
  {
  }

  /** The table and the two counts once these targets are done with. */
  predicate CanceledSoFar(before: map<RunId, Run>, targets: seq<RunId>, runs: map<RunId, Run>, running: nat,
                          queued: nat)
  {
    && runs == KilledAll(before, Elements(targets))
    && running == CountStatus(targets, before, Running) && queued == CountStatus(targets, before, Queued)
  }

  lemma NoneCanceled(runs: map<RunId, Run>)
    ensures CanceledSoFar(runs, [], runs, 0, 0)
  {
  }

  /** One more target: an active run is killed and counted by its status, any other is passed over. */
  lemma CancelOneMore(before: map<RunId, Run>, targets: seq<RunId>, i: nat, runs: map<RunId, Run>, running: nat,
                      queued: nat)
    requires Distinct(targets) && i < |targets| && targets[i] in before
    requires CanceledSoFar(before, targets[..i], runs, running, queued)
    ensures targets[i] in runs && runs[targets[i]] == before[targets[i]]
    ensures var run := before[targets[i]];
            CanceledSoFar(before, targets[..i + 1], runs[targets[i] := KilledRow(run)],
                          if run.status == Running then running + 1 else running,
                          if run.status == Queued then queued + 1 else queued)
  {
    var r := targets[i];
    assert targets[..i + 1] == targets[..i] + [r] && r !in targets[..i];
    KilledOneMore(before, targets[..i], r);
    FilterSnoc(targets[..i], r, r => r in before && before[r].status == Running);
    FilterSnoc(targets[..i], r, r => r in before && before[r].status == Queued);
  }

  lemma SelectedDistinct(t: Table, status: Status, scope: Scope)
    requires Proper(t)
    ensures Distinct(Selected(t, status, scope))
    ensures forall r | r in Selected(t, status, scope) :: r in t.runs
  {
    FilterDistinct(t.order, r => t.HasStatus(r, status));
    var ids := Listed(t, status, scope.Limit());
    assert Distinct(ids);
    FilterDistinct(ids, r => r in t.runs && scope.Covers(r, t.runs[r]));
    FilterMembers(ids, r => r in t.runs && scope.Covers(r, t.runs[r]));
  }

  lemma Joined(a: seq<RunId>, b: seq<RunId>)
    requires Distinct(a) && Distinct(b) && forall r | r in b :: r !in a
    ensures Distinct(a + b)
  {
    forall i, j | 0 <= i < j < |a + b| ensures (a + b)[i] != (a + b)[j] {
      if i < |a| <= j {
        assert b[j - |a|] in b;
      }
    }
  }

  lemma TargetsDistinct(first: Table, second: Table, scope: Scope)
    requires Proper(first) && Proper(second) && first.runs.Keys <= second.runs.Keys
    ensures Distinct(Targets(first, second, scope))
    ensures forall r | r in Targets(first, second, scope) :: r in second.runs
  {
    SelectedDistinct(first, Running, scope);
    SelectedDistinct(second, Queued, scope);
    var found := if scope.running then Selected(first, Running, scope) else [];
    var ids := Selected(second, Queued, scope);
    FilterDistinct(ids, r => r !in found);
    FilterMembers(ids, r => r !in found);
    Joined(found, Unseen(ids, found));
  }

  /** What a listing pass has collected after looking at some of the rows. */
  function Collected(t: Table, scope: Scope, done: seq<RunId>, found: seq<RunId>): seq<RunId> {
    found + Unseen(InScope(done, t, scope), found)
  }

  lemma CollectOneMore(t: Table, scope: Scope, rows: seq<RunId>, i: nat, found: seq<RunId>)
    requires Distinct(rows) && i < |rows| && rows[i] in t.runs
    ensures var before := Collected(t, scope, rows[..i], found);
            Collected(t, scope, rows[..i + 1], found)
            == if rows[i] !in before && scope.Covers(rows[i], t.runs[rows[i]]) then before + [rows[i]] else before
  {
    var done, r := rows[..i], rows[i];
    assert rows[..i + 1] == done + [r] && r !in done;
    FilterMembers(done, r => r in t.runs && scope.Covers(r, t.runs[r]));
    FilterMembers(InScope(done, t, scope), r => r !in found);
    FilterSnoc(done, r, r => r in t.runs && scope.Covers(r, t.runs[r]));
    FilterSnoc(InScope(done, t, scope), r, r => r !in found);
  }

  /** Adds the listed runs in scope that were not found before. */
  method CollectRows(t: Table, scope: Scope, rows: seq<RunId>, found: seq<RunId>) returns (targets: seq<RunId>)
    requires Distinct(rows) && forall r | r in rows :: r in t.runs
    ensures targets == Collected(t, scope, rows, found)
  {
    var i := 0;
    targets := found;
    while i < |rows|
      invariant 0 <= i <= |rows| && targets == Collected(t, scope, rows[..i], found)
    {
      CollectOneMore(t, scope, rows, i, found);
      if rows[i] !in targets && scope.Covers(rows[i], t.runs[rows[i]]) {
        targets := targets + [rows[i]];
      }
      i := i + 1;
    }
    assert rows[..i] == rows;
  }

  lemma ListedDistinct(t: Table, status: Status, limit: nat)
    requires Proper(t)
    ensures Distinct(Listed(t, status, limit))
  {
    FilterDistinct(t.order, r => t.HasStatus(r, status));
  }

  /** One listing pass. */
  method CollectTargets(t: Table, scope: Scope, status: Status, found: seq<RunId>) returns (targets: seq<RunId>)
    requires Proper(t)
    ensures targets == found + Unseen(Selected(t, status, scope), found)
  {
    ListedDistinct(t, status, scope.Limit());
    targets := CollectRows(t, scope, Listed(t, status, scope.Limit()), found);
  }

  lemma {:induction false} NothingSeen(ids: seq<RunId>)
    ensures [] + Unseen(ids, []) == ids
  {
    if ids != [] {
      NothingSeen(Init(ids));
    }
  }

  class RunTable {
    var runs: map<RunId, Run>

    /** The cancelling transaction, counting the runs it interrupts and the ones it dequeues. */
    method CancelAll(targets: seq<RunId>) returns (canceledRunning: nat, canceledQueued: nat)
      requires Distinct(targets) && forall r | r in targets :: r in runs
      modifies this
      ensures runs == KilledAll(old(runs), Elements(targets))
      ensures canceledRunning == CountStatus(targets, old(runs), Running)
      ensures canceledQueued == CountStatus(targets, old(runs), Queued)
    {
      ghost var before := runs;
      canceledRunning, canceledQueued := 0, 0;
      var i := 0;
      NoneCanceled(runs);
      while i < |targets|
        invariant 0 <= i <= |targets|
        invariant CanceledSoFar(before, targets[..i], runs, canceledRunning, canceledQueued)
      {
        CancelOneMore(before, targets, i, runs, canceledRunning, canceledQueued);
        var r := targets[i];
        var current := runs[r];
        if current.status in {Queued, Running} {
          runs := runs[r := KilledRow(current)];
          if current.status == Queued {
            canceledQueued := canceledQueued + 1;
          } else {
            canceledRunning := canceledRunning + 1;
          }
        } else {
          assert runs[r := KilledRow(current)] == runs;
        }
        i := i + 1;
      }
      assert targets[..i] == targets;
    }

    /**
      The whole operation. `first` and `second` are the tables its two listings saw; the transaction meets
      whatever the table has become by then. It cancels the targets that are still active, revoking their
      leases, and leaves every other run as it was.
     */
    method KillSwitchRuns(scope: Scope, first: Table, second: Table) returns (summary: Summary)
      requires Proper(first) && Proper(second) && first.runs.Keys <= second.runs.Keys <= runs.Keys
      modifies this
      ensures summary.Rejected? <==> !scope.running && !scope.queued
      ensures summary.Rejected? ==> runs == old(runs)
      ensures summary.Summary? ==>
                && summary.targets == Targets(first, second, scope)
                && runs == KilledAll(old(runs), Elements(summary.targets))
                && summary.canceledRunning == CountStatus(summary.targets, old(runs), Running)
                && summary.canceledQueued == CountStatus(summary.targets, old(runs), Queued)
    {
      if !scope.running && !scope.queued {
        return Rejected;
      }
      var targets: seq<RunId> := [];
      if scope.running {
        targets := CollectTargets(first, scope, Running, []);
        NothingSeen(Selected(first, Running, scope));
      }
      assert targets == if scope.running then Selected(first, Running, scope) else [];
      if scope.queued {
        targets := CollectTargets(second, scope, Queued, targets);
      }
      assert targets == Targets(first, second, scope);
      TargetsDistinct(first, second, scope);
      var canceledRunning, canceledQueued := CancelAll(targets);
      summary := Summary(targets, canceledRunning, canceledQueued);
    }
  }
}
