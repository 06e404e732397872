/**
  The file watcher of an automation: one scan (`_scan_watch_changes`), and histories in which any number of
  passes overlap. A pass works on the cursor of the row it was handed and later writes its own cursor back.
 */
module WatchScan {
  import opened Common
  import opened Sorting

  /** A version of a file: its display name and modification time. */
  datatype Version = Version(name: string, mtime: int)

  predicate Older(a: Version, b: Version) { a.mtime <= b.mtime }

  predicate IsNew(v: Version, cursor: int) { v.mtime > cursor }

  function Changed(files: seq<Version>, cursor: int): seq<Version> { Filter(files, v => IsNew(v, cursor)) }

  function MaxSeen(files: seq<Version>, cursor: int): int {
    if files == [] then cursor else Max(MaxSeen(Init(files), cursor), Last(files).mtime)
  }

  function LastFew<T>(s: seq<T>, n: nat): seq<T> { s[|s| - Min(n, |s|)..] }

  /** The versions a scan reports, oldest first: the newest `limit` of those past the cursor. */
  function Reported(files: seq<Version>, cursor: int, limit: nat): seq<Version> {
    LastFew(Sort(Changed(files, cursor), Older), limit)
  }

  method ScanWatchChanges(files: seq<Version>, cursor: int, limit: nat) returns (report: seq<Version>, maxSeen: int)
    ensures report == Reported(files, cursor, limit)
    ensures maxSeen == MaxSeen(files, cursor)
  {
    var rows: seq<Version> := [];
    maxSeen := cursor;
    var i := 0;
    while i < |files|
      invariant 0 <= i <= |files|
      invariant rows == Changed(files[..i], cursor) && maxSeen == MaxSeen(files[..i], cursor)
    {
      assert files[..i + 1] == files[..i] + [files[i]];
      InitLast(files[..i], files[i]);
      FilterSnoc(files[..i], files[i], v => IsNew(v, cursor));
      if files[i].mtime > maxSeen {
        maxSeen := files[i].mtime;
      }
      if files[i].mtime > cursor {
        rows := rows + [files[i]];
      }
      i := i + 1;
    }
    assert files[..i] == files;
    report := LastFew(Sort(rows, Older), limit);
  }

  // ---- One scan ----

  lemma {:induction false} MaxSeenBounds(files: seq<Version>, cursor: int)
    ensures cursor <= MaxSeen(files, cursor)
    ensures forall v | v in files :: v.mtime <= MaxSeen(files, cursor)
  {
    if files != [] {
      MaxSeenBounds(Init(files), cursor);
      assert files == Init(files) + [Last(files)];
    }
  }

  /** The scan reports as many of the versions past the cursor as the limit allows, and nothing else. */
  lemma ReportedMembers(files: seq<Version>, cursor: int, limit: nat)
    ensures forall v | v in Reported(files, cursor, limit) :: v in files && v.mtime > cursor
    ensures var n := Count(files, (v: Version) => v.mtime > cursor);
            |Reported(files, cursor, limit)| == if limit < n then limit else n
  {
    var changed := Changed(files, cursor);
    var sorted := Sort(changed, Older);
    FilterMembers(files, v => IsNew(v, cursor));
    FilterSame(files, v => IsNew(v, cursor), (v: Version) => v.mtime > cursor);
    forall v | v in Reported(files, cursor, limit) ensures v in changed {
      assert v in sorted;
      assert v in multiset(sorted);
    }
  }

  lemma TailMembers(s: seq<Version>, cut: nat)
    requires cut <= |s|
    ensures forall k | cut <= k < |s| :: s[k] in s[cut..]
  {
    forall k | cut <= k < |s| ensures s[k] in s[cut..] {
      assert s[cut..][k - cut] == s[k];
    }
  }

  /** A changed version that the limit cuts off is no newer than any version that is reported. */
  lemma NewestAreReported(files: seq<Version>, cursor: int, limit: nat, v: Version, w: Version)
    requires v in files && v.mtime > cursor
    requires v !in Reported(files, cursor, limit) && w in Reported(files, cursor, limit)
    ensures v.mtime <= w.mtime
  {
    FilterMembers(files, v => IsNew(v, cursor));
    var sorted := Sort(Changed(files, cursor), Older);
    SortSorts(Changed(files, cursor), Older);
    assert v in multiset(sorted);
    var i :| 0 <= i < |sorted| && sorted[i] == v;
    var cut := |sorted| - Min(limit, |sorted|);
    var j :| 0 <= j < |sorted| - cut && sorted[cut..][j] == w;
    TailMembers(sorted, cut);
    assert i < cut;
  }

  // ---- Histories of overlapping passes ----

  /** `stored` is when the pass wrote its cursor back, if it did. */
  datatype Pass = Pass(read: int, files: seq<Version>, limit: nat, began: nat, stored: Option<nat>, open: bool)
  {
    function Report(): seq<Version> { Reported(files, read, limit) }

    /** The cursor the pass writes back. */
    function Cursor(): int { MaxSeen(files, read) }
  }

  /** The stored cursor, every pass so far, the number of steps taken and when the cursor was last stored. */
  datatype Watch = Watch(cursor: int, passes: seq<Pass>, clock: nat, lastStore: Option<nat>)

  /**
    A pass is handed the row and scans the directory, later stores its cursor, or ends without storing. An
    update that keeps the schedule is a pass over no files: it writes back the cursor it was handed.
   */
  datatype Step = Begin(files: seq<Version>, limit: nat) | Store(i: nat) | Drop(i: nat)

  predicate CanTake(w: Watch, step: Step) {
    match step
    case Begin(_, _) => true
    case Store(i) => i < |w.passes| && w.passes[i].open
    case Drop(i) => i < |w.passes| && w.passes[i].open
  }

  function Take(w: Watch, step: Step): Watch
    requires CanTake(w, step)
  {
    match step
    case Begin(files, limit) =>
      w.(passes := w.passes + [Pass(w.cursor, files, limit, w.clock, None, true)], clock := w.clock + 1)
    case Store(i) =>
      Watch(w.passes[i].Cursor(), w.passes[i := w.passes[i].(stored := Some(w.clock), open := false)],
            w.clock + 1, Some(w.clock))
    case Drop(i) => w.(passes := w.passes[i := w.passes[i].(open := false)], clock := w.clock + 1)
  }

  /** `steps` can be taken one after the other, each one admitted by `allowed`. */
  predicate LegalUnder(w: Watch, steps: seq<Step>, allowed: (Watch, Step) -> bool)
    decreases |steps|
  {
    steps == [] || (CanTake(w, steps[0]) && allowed(w, steps[0]) && LegalUnder(Take(w, steps[0]), steps[1..], allowed))
  }

  function After(w: Watch, steps: seq<Step>, allowed: (Watch, Step) -> bool): Watch
    requires LegalUnder(w, steps, allowed)
    decreases |steps|
  {
    if steps == [] then w else After(Take(w, steps[0]), steps[1..], allowed)
  }

  function Start(cursor: int): Watch { Watch(cursor, [], 0, None) }

  predicate Anything(w: Watch, step: Step) { true }

  /** A pass that has ended is never touched again; one that was dropped has stored nothing. */
  lemma {:induction false} EndedPassStays(w: Watch, steps: seq<Step>, i: nat)
    requires LegalUnder(w, steps, Anything) && i < |w.passes| && !w.passes[i].open
    ensures i < |After(w, steps, Anything).passes| && After(w, steps, Anything).passes[i] == w.passes[i]
    decreases |steps|
  {
    if steps != [] {
      EndedPassStays(Take(w, steps[0]), steps[1..], i);
    }
  }

  lemma DropStoresNothing(w: Watch, steps: seq<Step>, i: nat)
    requires CanTake(w, Drop(i)) && LegalUnder(Take(w, Drop(i)), steps, Anything)
    ensures Take(w, Drop(i)).cursor == w.cursor
    ensures var after := After(Take(w, Drop(i)), steps, Anything);
            i < |after.passes| && after.passes[i].stored == w.passes[i].stored
  {
    EndedPassStays(Take(w, Drop(i)), steps, i);
  }

  // ---- When the cursor falls ----

  lemma {:induction false} MaxSeenAttained(files: seq<Version>, cursor: int)
    ensures MaxSeen(files, cursor) == cursor || exists v :: v in files && v.mtime == MaxSeen(files, cursor)
  {
    if files != [] {
      MaxSeenAttained(Init(files), cursor);
      assert files == Init(files) + [Last(files)];
    }
  }

  /** Storing lowers the cursor if and only if the stored one has passed everything the writer saw. */
  lemma StoreLowersIff(w: Watch, i: nat)
    requires CanTake(w, Store(i))
    ensures Take(w, Store(i)).cursor < w.cursor <==>
              w.passes[i].read < w.cursor && forall v | v in w.passes[i].files :: v.mtime < w.cursor
  {
    MaxSeenBounds(w.passes[i].files, w.passes[i].read);
    MaxSeenAttained(w.passes[i].files, w.passes[i].read);
  }

  /** No store lowers the cursor. */
  predicate Rising(w: Watch, step: Step) {
    step.Store? && CanTake(w, step) ==> w.cursor <= w.passes[step.i].Cursor()
  }

  /** No store falls between a storing pass's read and its write. */
  predicate Uninterrupted(w: Watch, step: Step) {
    step.Store? && CanTake(w, step) && w.lastStore.Some? ==> w.lastStore.value < w.passes[step.i].began
  }

  /** What stored passes have seen is behind the cursor, and was behind the cursor of every pass begun since. */
  predicate Covered(w: Watch) {
    && (forall i | 0 <= i < |w.passes| :: w.passes[i].began < w.clock)
    && (forall i | 0 <= i < |w.passes| && w.passes[i].stored.Some? ::
          w.passes[i].stored.value < w.clock && w.passes[i].Cursor() <= w.cursor)
    && (forall i, j | 0 <= i < |w.passes| && 0 <= j < |w.passes| && w.passes[i].stored.Some? ::
          w.passes[i].stored.value < w.passes[j].began ==> w.passes[i].Cursor() <= w.passes[j].read)
  }

  lemma CoveredStep(w: Watch, step: Step)
    requires Covered(w) && CanTake(w, step) && Rising(w, step)
    ensures Covered(Take(w, step)) && w.cursor <= Take(w, step).cursor
  {
  }

  /** As long as no store lowers it, the cursor covers everything stored passes have seen. */
  lemma {:induction false} CursorGrows(w: Watch, steps: seq<Step>)
    requires Covered(w) && LegalUnder(w, steps, Rising)
    ensures Covered(After(w, steps, Rising)) && w.cursor <= After(w, steps, Rising).cursor
    decreases |steps|
  {
    if steps != [] {
      CoveredStep(w, steps[0]);
      CursorGrows(Take(w, steps[0]), steps[1..]);
    }
  }

  // ---- Reported once ----

  /**
    One chance per version: once a pass that stored its cursor has seen a version of a file, reported or cut
    off by the limit, and whatever became of its trigger, no pass begun later reports that version.
   */
  lemma OneChancePerVersion(start: int, steps: seq<Step>, i: nat, j: nat, v: Version)
    requires LegalUnder(Start(start), steps, Rising)
    requires var passes := After(Start(start), steps, Rising).passes;
             && i < |passes| && j < |passes| && v in passes[i].files
             && passes[i].stored.Some? && passes[i].stored.value < passes[j].began
    ensures v !in After(Start(start), steps, Rising).passes[j].Report()
  {
    CursorGrows(Start(start), steps);
    var passes := After(Start(start), steps, Rising).passes;
    MaxSeenBounds(passes[i].files, passes[i].read);
    ReportedMembers(passes[j].files, passes[j].read, passes[j].limit);
  }

  /** Each of the two passes began before the other had stored. */
  predicate Overlap(p: Pass, q: Pass)
    requires p.stored.Some? && q.stored.Some?
  {
    p.began <= q.stored.value && q.began <= p.stored.value
  }

  /** While no store lowers the cursor, only overlapping passes can both report a version and store. */
  lemma ReportedTwiceOnlyByOverlap(start: int, steps: seq<Step>, i: nat, j: nat, v: Version)
    requires LegalUnder(Start(start), steps, Rising)
    requires var passes := After(Start(start), steps, Rising).passes;
             && i < |passes| && j < |passes| && passes[i].stored.Some? && passes[j].stored.Some?
             && v in passes[i].Report() && v in passes[j].Report()
    ensures var passes := After(Start(start), steps, Rising).passes; Overlap(passes[i], passes[j])
  {
    var passes := After(Start(start), steps, Rising).passes;
    ReportedMembers(passes[i].files, passes[i].read, passes[i].limit);
    ReportedMembers(passes[j].files, passes[j].read, passes[j].limit);
    if passes[i].stored.value < passes[j].began {
      OneChancePerVersion(start, steps, i, j, v);
    } else if passes[j].stored.value < passes[i].began {
      OneChancePerVersion(start, steps, j, i, v);
    }
  }

  /** Open passes begun since the last store still hold the stored cursor, and stored passes lie apart. */
  predicate Apart(w: Watch) {
    && (forall i | 0 <= i < |w.passes| :: w.passes[i].began < w.clock)
    && (forall i | 0 <= i < |w.passes| && (w.lastStore.None? || w.lastStore.value < w.passes[i].began) ::
          w.passes[i].read == w.cursor)
    && (forall i | 0 <= i < |w.passes| && w.passes[i].stored.Some? ::
          !w.passes[i].open && w.lastStore.Some? && w.passes[i].stored.value <= w.lastStore.value < w.clock)
    && (forall i, j | 0 <= i < |w.passes| && 0 <= j < |w.passes| ::
          i != j && w.passes[i].stored.Some? && w.passes[j].stored.Some? ==> !Overlap(w.passes[i], w.passes[j]))
  }

  lemma ApartStep(w: Watch, step: Step)
    requires Apart(w) && CanTake(w, step) && Uninterrupted(w, step)
    ensures Apart(Take(w, step)) && Rising(w, step)
  {
    if step.Store? {
      MaxSeenBounds(w.passes[step.i].files, w.passes[step.i].read);
    }
  }

  /** Without interrupted stores the cursor never falls at any step, and stored passes lie apart. */
  lemma {:induction false} UninterruptedIsRising(w: Watch, steps: seq<Step>)
    requires Apart(w) && LegalUnder(w, steps, Uninterrupted)
    ensures LegalUnder(w, steps, Rising) && Apart(After(w, steps, Rising)) && w.cursor <= After(w, steps, Rising).cursor
    decreases |steps|
  {
    if steps != [] {
      ApartStep(w, steps[0]);
      UninterruptedIsRising(Take(w, steps[0]), steps[1..]);
    }
  }

  /** Unless a store falls between a storing pass's read and its write, no two passes that store report a version. */
  lemma ReportedAtMostOnce(start: int, steps: seq<Step>, i: nat, j: nat, v: Version)
    requires LegalUnder(Start(start), steps, Uninterrupted)
    ensures LegalUnder(Start(start), steps, Rising)
    ensures var passes := After(Start(start), steps, Rising).passes;
            (&& i < |passes| && j < |passes| && passes[i].stored.Some? && passes[j].stored.Some?
             && v in passes[i].Report() && v in passes[j].Report()) ==> i == j
  {
    UninterruptedIsRising(Start(start), steps);
    var passes := After(Start(start), steps, Rising).passes;
    if i < |passes| && j < |passes| && passes[i].stored.Some? && passes[j].stored.Some?
       && v in passes[i].Report() && v in passes[j].Report()
    {
      ReportedTwiceOnlyByOverlap(start, steps, i, j, v);
    }
  }

  // ---- It happens ----

  lemma {:induction false} ThenTake(w: Watch, steps: seq<Step>, allowed: (Watch, Step) -> bool, step: Step)
    requires LegalUnder(w, steps, allowed)
    requires CanTake(After(w, steps, allowed), step) && allowed(After(w, steps, allowed), step)
    ensures LegalUnder(w, steps + [step], allowed)
    ensures After(w, steps + [step], allowed) == Take(After(w, steps, allowed), step)
    decreases |steps|
  {
    if steps == [] {
      assert LegalUnder(Take(w, step), [], allowed);
    } else {
      ThenTake(Take(w, steps[0]), steps[1..], allowed, step);
      assert (steps + [step])[1..] == steps[1..] + [step];
    }
  }

  lemma Next(start: int, steps: seq<Step>, w: Watch, allowed: (Watch, Step) -> bool, step: Step)
      returns (steps': seq<Step>, w': Watch)
    requires LegalUnder(Start(start), steps, allowed) && w == After(Start(start), steps, allowed)
    requires CanTake(w, step) && allowed(w, step)
    ensures LegalUnder(Start(start), steps', allowed)
    ensures w' == After(Start(start), steps', allowed) == Take(w, step)
  {
    ThenTake(Start(start), steps, allowed, step);
    steps', w' := steps + [step], Take(w, step);
  }

  /** Two passes handed the same row both report every change, whatever the directory holds. */
  lemma OverlapReportsTwice(start: int, files: seq<Version>, limit: nat) returns (steps: seq<Step>)
    ensures LegalUnder(Start(start), steps, Rising)
    ensures var passes := After(Start(start), steps, Rising).passes;
            && |passes| == 2 && passes[0].stored.Some? && passes[1].stored.Some?
            && passes[0].Report() == passes[1].Report() == Reported(files, start, limit)
  {
    var w := Start(start);
    steps := [];
    MaxSeenBounds(files, start);
    steps, w := Next(start, steps, w, Rising, Begin(files, limit));
    steps, w := Next(start, steps, w, Rising, Begin(files, limit));
    steps, w := Next(start, steps, w, Rising, Store(0));
    steps, w := Next(start, steps, w, Rising, Store(1));
  }

  /** Without a cut every changed version is reported. */
  lemma UncutReport(files: seq<Version>, cursor: int, limit: nat, v: Version)
    requires |files| <= limit
    ensures v in Reported(files, cursor, limit) <==> v in files && v.mtime > cursor
  {
    var changed := Changed(files, cursor);
    FilterMembers(files, v => IsNew(v, cursor));
    SortMembers(changed, Older);
    assert Reported(files, cursor, limit) == Sort(changed, Older);
  }

  /** Two passes begin together, and the one that saw less stores last. */
  lemma SlowStore(start: int, older: seq<Version>, newer: seq<Version>, limit: nat)
      returns (steps: seq<Step>, w: Watch)
    ensures LegalUnder(Start(start), steps, Anything) && w == After(Start(start), steps, Anything)
    ensures w.cursor == MaxSeen(older, start)
    ensures w.passes == [Pass(start, older, limit, 0, Some(3), false), Pass(start, newer, limit, 1, Some(2), false)]
  {
    steps, w := [], Start(start);
    steps, w := Next(start, steps, w, Anything, Begin(older, limit));
    steps, w := Next(start, steps, w, Anything, Begin(newer, limit));
    steps, w := Next(start, steps, w, Anything, Store(1));
    steps, w := Next(start, steps, w, Anything, Store(0));
  }

  lemma WholePass(start: int, steps: seq<Step>, w: Watch, files: seq<Version>, limit: nat)
      returns (steps': seq<Step>, w': Watch)
    requires LegalUnder(Start(start), steps, Anything) && w == After(Start(start), steps, Anything)
    ensures LegalUnder(Start(start), steps', Anything) && w' == After(Start(start), steps', Anything)
    ensures w'.passes == w.passes + [Pass(w.cursor, files, limit, w.clock, Some(w.clock + 1), false)]
  {
    steps', w' := Next(start, steps, w, Anything, Begin(files, limit));
    steps', w' := Next(start, steps', w', Anything, Store(|w.passes|));
  }

  lemma SeenByBoth(start: int, older: seq<Version>, newer: seq<Version>, v: Version)
    requires v in newer && MaxSeen(older, start) < v.mtime
    ensures v in Reported(newer, start, |newer|) && v in Reported(newer, MaxSeen(older, start), |newer|)
    ensures MaxSeen(older, start) < MaxSeen(newer, start)
  {
    MaxSeenBounds(older, start);
    MaxSeenBounds(newer, start);
    UncutReport(newer, start, |newer|, v);
    UncutReport(newer, MaxSeen(older, start), |newer|, v);
  }

  /**
    A slow pass over an older directory lowers the cursor that a later pass has stored; the next pass then
    reports and stores again what that one had reported and stored.
   */
  lemma CursorFalls(start: int, older: seq<Version>, newer: seq<Version>, v: Version) returns (steps: seq<Step>)
    requires v in newer && MaxSeen(older, start) < v.mtime
    ensures LegalUnder(Start(start), steps, Anything)
    ensures var w := After(Start(start), steps, Anything);
            && |w.passes| == 3 && w.passes[0].stored.Some? && w.passes[1].stored.Some? && w.passes[2].stored.Some?
            && w.passes[2].read == MaxSeen(older, start) < w.passes[1].Cursor()
            && v in w.passes[1].Report() && v in w.passes[2].Report()
  {
    var w, limit := Start(start), |newer|;
    steps, w := SlowStore(start, older, newer, limit);
    var slow, fast := w.passes[0], w.passes[1];
    steps, w := WholePass(start, steps, w, newer, limit);
    SeenByBoth(start, older, newer, v);
    assert w.passes[0] == slow && w.passes[1] == fast;
  }

  /** Looking again at the same files repeats a report if and only if the first pass did not store its cursor. */
  lemma ReportedAgainIff(w: Watch, i: nat, end: Step, v: Version)
    requires end in {Store(i), Drop(i)} && CanTake(w, end)
    requires w.passes[i].read == w.cursor && v in w.passes[i].Report()
    ensures v in Reported(w.passes[i].files, Take(w, end).cursor, w.passes[i].limit) <==> end.Drop?
  {
    var p := w.passes[i];
    MaxSeenBounds(p.files, p.read);
    ReportedMembers(p.files, p.read, p.limit);
    ReportedMembers(p.files, p.Cursor(), p.limit);
  }
}
