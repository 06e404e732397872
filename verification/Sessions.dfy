/** The unified session manager (flow/session_manager.py): lifecycle, activity and capacity eviction. */
module Sessions {
  import opened Common
  import opened Sorting
  import opened Text

  datatype State = Start | Created | Listening | Planning | Acting | Reviewing | Closed

  datatype Channel = TextChannel | Voice | Visual

  datatype Transition = Transition(from: State, to: State, at: int, reason: string)

  datatype Session = Session(id: string, user: string, state: State, channels: set<Channel>, updatedAt: int,
                             closedAt: Option<int>, transitions: seq<Transition>, activity: map<Channel, nat>,
                             eventsEmitted: nat, transitionCount: nat)

  datatype Error =
    | NoId | NoUser | BadChannel | BadState | Full | NoSession | NotAllowed | NoEvent | IsClosed | ChannelOff

  datatype Result = Ok(session: Session) | Err(error: Error)

  /** `_ALLOWED_TRANSITIONS` */
  function Allowed(from: State): set<State> {
    match from
    case Start => {Created}
    case Created => {Listening, Planning, Acting, Reviewing, Closed}
    case Listening => {Planning, Acting, Reviewing, Closed}
    case Planning => {Acting, Reviewing, Closed}
    case Acting => {Reviewing, Planning, Closed}
    case Reviewing => {Planning, Acting, Closed}
    case Closed => {}
  }

  function StateName(s: State): string {
    match s
    case Start => "start"
    case Created => "created"
    case Listening => "listening"
    case Planning => "planning"
    case Acting => "acting"
    case Reviewing => "reviewing"
    case Closed => "closed"
  }

  function ParseState(raw: string): Option<State> {
    var s := Lower(Strip(raw));
    if s == "created" then Some(Created)
    else if s == "listening" then Some(Listening)
    else if s == "planning" then Some(Planning)
    else if s == "acting" then Some(Acting)
    else if s == "reviewing" then Some(Reviewing)
    else if s == "closed" then Some(Closed)
    else None
  }

  /** The initial state asked for: blank means created. */
  function StartState(initial: string): (r: Option<State>)
    ensures r.Some? ==> r.value == Created || r.value in Allowed(Created)
  {
    if Strip(initial) == "" then Some(Created) else ParseState(initial)
  }

  /** A state is asked for by its name, up to case and outer space; the state before creation never is. */
  lemma StatesHaveNames(raw: string, s: State)
    ensures ParseState(raw) == Some(s) <==> s != Start && Lower(Strip(raw)) == StateName(s)
    ensures StartState(raw) == Some(s) <==> ParseState(raw) == Some(s) || (s == Created && Strip(raw) == "")
  {
    if Strip(raw) == "" {
      assert Lower(Strip(raw)) == "";
    }
  }

  /** A blank reason is replaced by a standard one. */
  function Reason(raw: string): (reason: string)
    ensures reason != "" && (reason == Strip(raw) || (reason == "state_transition" && Strip(raw) == ""))
  {
    if Strip(raw) == "" then "state_transition" else Strip(raw)
  }

  function ParseChannel(raw: string): (c: Option<Channel>)
    ensures c == Some(TextChannel) <==> Lower(Strip(raw)) == "text"
    ensures c == Some(Voice) <==> Lower(Strip(raw)) == "voice"
    ensures c == Some(Visual) <==> Lower(Strip(raw)) == "visual"
  {
    var s := Lower(Strip(raw));
    if s == "text" then Some(TextChannel)
    else if s == "voice" then Some(Voice)
    else if s == "visual" then Some(Visual)
    else None
  }

  /** Blank names are dropped, nothing left means text, and one unknown name refuses the whole list. */
  function NormalizeChannels(raw: seq<string>): Option<set<Channel>> {
    var named := Filter(raw, s => Strip(s) != "");
    if named == [] then Some({TextChannel})
    else if exists s | s in named :: ParseChannel(s).None? then None
    else Some(set s | s in named && ParseChannel(s).Some? :: ParseChannel(s).value)
  }

  /** A list is refused exactly for an unknown name; otherwise it stands for the channels it names, or for text. */
  lemma ChannelsAreNamed(raw: seq<string>, c: Channel)
    ensures NormalizeChannels(raw).None? <==> exists s | s in raw :: Strip(s) != "" && ParseChannel(s).None?
    ensures NormalizeChannels(raw).Some? ==>
              (c in NormalizeChannels(raw).value <==>
                 || (exists s | s in raw :: Strip(s) != "" && ParseChannel(s) == Some(c))
                 || (c == TextChannel && forall s | s in raw :: Strip(s) == ""))
  {
    FilterMembers(raw, s => Strip(s) != "");
    var named := Filter(raw, s => Strip(s) != "");
    if named != [] {
      assert named[0] in named;
    }
  }

  // ---- Histories of states ----

  function States(transitions: seq<Transition>): seq<State> {
    seq(|transitions|, i requires 0 <= i < |transitions| => transitions[i].to)
  }

  /** Each state is one the table allows after the one before it. */
  predicate Follows(states: seq<State>) {
    && states != [] && states[0] in Allowed(Start)
    && forall i | 0 < i < |states| :: states[i] in Allowed(states[i - 1])
  }

  /**
    Created, then perhaps listening, then planning, acting and reviewing in any order without an
    immediate repeat, then perhaps closed.
   */
  predicate Lifecycle(states: seq<State>) {
    && states != [] && states[0] == Created
    && forall i | 0 < i < |states| ::
         && states[i] != Start && states[i] != Created && states[i] != states[i - 1]
         && (states[i] == Listening ==> i == 1)
         && (states[i] == Closed ==> i == |states| - 1)
  }

  /** The transition table admits exactly the lifecycle histories. */
  lemma TableIsLifecycle(states: seq<State>)
    ensures Follows(states) <==> Lifecycle(states)
  {
    if Follows(states) {
      forall i | 0 < i < |states|
        ensures states[i] != Start && states[i] != Created && states[i] != states[i - 1]
        ensures states[i] == Listening ==> i == 1
        ensures states[i] == Closed ==> i == |states| - 1
      {
        assert states[i] in Allowed(states[i - 1]);
        assert i > 1 ==> states[i - 1] in Allowed(states[i - 2]);
        assert i > 2 ==> states[i - 2] in Allowed(states[i - 3]);
        assert i + 1 < |states| ==> states[i + 1] in Allowed(states[i]);
      }
    }
    if Lifecycle(states) {
      forall i | 0 < i < |states| ensures states[i] in Allowed(states[i - 1]) {
        assert i > 1 ==> states[i - 1] != Created;
      }
    }
  }

  // ---- Sessions ----

  function Get(activity: map<Channel, nat>, c: Channel): nat { if c in activity then activity[c] else 0 }

  function Total(activity: map<Channel, nat>): nat {
    Get(activity, TextChannel) + Get(activity, Voice) + Get(activity, Visual)
  }

  predicate Linked(transitions: seq<Transition>) {
    && (transitions != [] ==> transitions[0].from == Start)
    && forall i | 0 < i < |transitions| :: transitions[i].from == transitions[i - 1].to
  }

  /** A stored session: its history obeys the lifecycle and its counters add up. */
  predicate Consistent(s: Session) {
    && Follows(States(s.transitions)) && Linked(s.transitions)
    && s.state == Last(s.transitions).to
    && s.transitionCount == |s.transitions|
    && s.eventsEmitted == |s.transitions| + Total(s.activity) + 1
    && (s.state == Closed <==> s.closedAt.Some?)
    && s.activity.Keys == s.channels
  }

  /** So every stored session has lived a prefix of the lifecycle, and only its last state can be closed. */
  lemma StoredSessionsFollowLifecycle(s: Session)
    requires Consistent(s)
    ensures Lifecycle(States(s.transitions))
    ensures forall i | 0 <= i < |s.transitions| - 1 :: s.transitions[i].to != Closed
  {
    TableIsLifecycle(States(s.transitions));
    assert forall i | 0 <= i < |s.transitions| :: States(s.transitions)[i] == s.transitions[i].to;
  }

  function Opened(id: string, user: string, channels: set<Channel>, now: int): Session {
    Session(id, user, Start, channels, now, None, [], map c | c in channels :: 0, 0, 0)
  }

  /** `_transition` on a session, once the table has allowed it. */
  function Transit(s: Session, to: State, reason: string, now: int): Session {
    s.(transitions := s.transitions + [Transition(s.state, to, now, reason)],
       state := to, updatedAt := now, closedAt := if to == Closed then Some(now) else s.closedAt,
       transitionCount := s.transitionCount + 1, eventsEmitted := s.eventsEmitted + 1)
  }

  function Emitted(s: Session): Session { s.(eventsEmitted := s.eventsEmitted + 1) }

  lemma TransitStates(s: Session, to: State, reason: string, now: int)
    ensures States(Transit(s, to, reason, now).transitions) == States(s.transitions) + [to]
  {
  }

  /** A transition moves the session, adds one line to its history, and touches nothing but its times and counters. */
  lemma TransitMeans(s: Session, to: State, reason: string, now: int)
    ensures var s' := Transit(s, to, reason, now);
            && s'.state == to && s'.updatedAt == now && (to == Closed ==> s'.closedAt == Some(now))
            && |s'.transitions| == |s.transitions| + 1
            && s'.transitions[..|s.transitions|] == s.transitions
            && Last(s'.transitions) == Transition(s.state, to, now, reason)
            && s'.id == s.id && s'.user == s.user && s'.channels == s.channels && s'.activity == s.activity
  {
  }

  lemma TransitKeepsConsistent(s: Session, to: State, reason: string, now: int)
    requires Consistent(s) && to in Allowed(s.state)
    ensures Consistent(Transit(s, to, reason, now))
  {
    TransitStates(s, to, reason, now);
    assert States(s.transitions) != [] && Last(States(s.transitions)) == s.state;
    var before, after := s.transitions, Transit(s, to, reason, now).transitions;
    assert after == before + [Transition(s.state, to, now, reason)];
    InitLast(before, Transition(s.state, to, now, reason));
    forall i | 0 < i < |after| ensures after[i].from == after[i - 1].to {
      if i < |before| {
        assert after[i] == before[i] && after[i - 1] == before[i - 1];
        assert before[i].from == before[i - 1].to;
      } else {
        assert after[i].from == s.state == before[i - 1].to;
      }
    }
  }

  /** The state a new session ends up in: created, or the requested one by a second transition. */
  function Begun(id: string, user: string, channels: set<Channel>, initial: State, now: int): Session {
    var created := Transit(Opened(id, user, channels, now), Created, "session_started", now);
    var begun := if initial != Created then Transit(created, initial, "initial_state_requested", now) else created;
    Emitted(begun)
  }

  lemma BegunIsConsistent(id: string, user: string, channels: set<Channel>, initial: State, now: int)
    requires initial == Created || initial in Allowed(Created)
    ensures Consistent(Begun(id, user, channels, initial, now))
    ensures var b := Begun(id, user, channels, initial, now);
            && b.state == initial && b.id == id && b.user == user && b.channels == channels && b.updatedAt == now
            && States(b.transitions) == (if initial == Created then [Created] else [Created, initial])
            && b.transitions[0].reason == "session_started"
            && (initial != Created ==> b.transitions[1].reason == "initial_state_requested")
            && forall c | c in b.activity :: b.activity[c] == 0
  {
    var created := Transit(Opened(id, user, channels, now), Created, "session_started", now);
    assert States(created.transitions) == [Created];
    assert Consistent(Emitted(created));
    if initial != Created {
      TransitKeepsConsistent(Emitted(created), initial, "initial_state_requested", now);
      assert Emitted(Transit(created, initial, "initial_state_requested", now))
          == Transit(Emitted(created), initial, "initial_state_requested", now);
    }
  }

  function Active(s: Session, c: Channel, now: int): Session
    requires c in s.activity
  {
    Emitted(s.(activity := s.activity[c := s.activity[c] + 1], updatedAt := now))
  }

  /** An event counts for its channel alone, and makes the session recent. */
  lemma ActiveMeans(s: Session, c: Channel, now: int, d: Channel)
    requires c in s.activity
    ensures var s' := Active(s, c, now);
            && Get(s'.activity, d) == Get(s.activity, d) + (if d == c then 1 else 0)
            && s'.updatedAt == now && s'.state == s.state && s'.transitions == s.transitions
            && s'.id == s.id && s'.user == s.user && s'.channels == s.channels
  {
  }

  lemma ActiveKeepsConsistent(s: Session, c: Channel, now: int)
    requires Consistent(s) && c in s.activity
    ensures Consistent(Active(s, c, now))
  {
  }

  // ---- The manager ----

  predicate Distinct(sessions: seq<Session>) {
    forall i, j | 0 <= i < j < |sessions| :: sessions[i].id != sessions[j].id
  }

  predicate Stalest(a: Session, b: Session) { a.updatedAt <= b.updatedAt }

  predicate IsClosedSession(s: Session) { s.state == Closed }

  function Without<T>(s: seq<T>, k: nat): seq<T>
    requires k < |s|
  {
    s[..k] + s[k + 1..]
  }

  /** `k` is a closed session updated no later than any other closed one. */
  predicate LeastRecentClosed(sessions: seq<Session>, k: nat) {
    && k < |sessions| && sessions[k].state == Closed
    && forall j | 0 <= j < |sessions| && sessions[j].state == Closed :: sessions[k].updatedAt <= sessions[j].updatedAt
  }

  lemma FrontIsStalest(sessions: seq<Session>, rows: seq<Session>, k: nat)
    requires Distinct(sessions) && rows != [] && Sorted(rows, Stalest)
    requires forall s | s in sessions && s.state == Closed :: s in rows
    requires rows[0] in sessions && rows[0].state == Closed && k < |sessions| && sessions[k].id == rows[0].id
    ensures LeastRecentClosed(sessions, k)
  {
    assert sessions[k] == rows[0];
    forall j | 0 <= j < |sessions| && sessions[j].state == Closed ensures rows[0].updatedAt <= sessions[j].updatedAt {
      assert sessions[j] in rows;
      var i :| 0 <= i < |rows| && rows[i] == sessions[j];
      assert i > 0 ==> Stalest(rows[0], rows[i]);
    }
  }

  lemma WithoutKeeps(sessions: seq<Session>, k: nat)
    requires k < |sessions| && Distinct(sessions)
    ensures |Without(sessions, k)| == |sessions| - 1 && Distinct(Without(sessions, k))
    ensures forall s | s in Without(sessions, k) :: s in sessions
  {
  }

  /** The closed sessions, least recently updated first. */
  function ClosedRows(sessions: seq<Session>): seq<Session> { Sort(Filter(sessions, IsClosedSession), Stalest) }

  lemma ClosedRowsAre(sessions: seq<Session>)
    ensures Sorted(ClosedRows(sessions), Stalest)
    ensures forall s | s in ClosedRows(sessions) :: s in sessions && s.state == Closed
    ensures forall s | s in sessions && s.state == Closed :: s in ClosedRows(sessions)
  {
    var closed, rows := Filter(sessions, IsClosedSession), ClosedRows(sessions);
    FilterMembers(sessions, IsClosedSession);
    SortSorts(closed, Stalest);
    assert forall s :: s in multiset(closed) <==> s in closed;
    assert forall s :: s in multiset(rows) <==> s in rows;
  }

  predicate NoneClosed(sessions: seq<Session>) { forall s | s in sessions :: s.state != Closed }

  /** Session `k` has the given id and may move to the named state. */
  predicate CanTransit(sessions: seq<Session>, k: int, id: string, to: string) {
    && id != "" && 0 <= k < |sessions| && sessions[k].id == id
    && ParseState(to).Some? && ParseState(to).value in Allowed(sessions[k].state)
  }

  /** Session `k` has the given id, is open and has the named channel enabled. */
  predicate CanRecord(sessions: seq<Session>, k: int, id: string, channel: string) {
    && id != "" && 0 <= k < |sessions| && sessions[k].id == id && sessions[k].state != Closed
    && ParseChannel(channel).Some? && ParseChannel(channel).value in sessions[k].channels
    && ParseChannel(channel).value in sessions[k].activity
  }

  class SessionManager {
    /** The sessions in insertion order, as the source's dictionary keeps them. */
    var sessions: seq<Session>
    const maxSessions: nat

    constructor (max: int)
      ensures Valid() && sessions == [] && maxSessions == Max(1, max)
    {
      sessions := [];
      maxSessions := Max(1, max);
    }

    predicate Valid()
      reads this
    {
      && maxSessions >= 1 && |sessions| <= maxSessions
      && Distinct(sessions)
      && forall s | s in sessions :: Consistent(s)
    }

    method Find(id: string) returns (k: int)
      requires Valid()
      ensures -1 <= k < |sessions|
      ensures k >= 0 ==> sessions[k].id == id
      ensures k < 0 ==> forall s | s in sessions :: s.id != id
    {
      k := 0;
      while k < |sessions|
        invariant 0 <= k <= |sessions| && forall j | 0 <= j < k :: sessions[j].id != id
      {
        if sessions[k].id == id {
          return;
        }
        k := k + 1;
      }
      k := -1;
    }

    /** Makes room when full by dropping the least recently updated closed session, and nothing else ever. */
    method EvictClosedIfNeeded()
      requires Valid()
      modifies this`sessions
      ensures Valid()
      ensures |sessions| < maxSessions || (sessions == old(sessions) && NoneClosed(sessions))
      ensures sessions == old(sessions)
           || (|old(sessions)| == maxSessions
               && exists k: nat :: LeastRecentClosed(old(sessions), k) && sessions == Without(old(sessions), k))
    {
      if |sessions| < maxSessions {
        return;
      }
      var rows := ClosedRows(sessions);
      ClosedRowsAre(sessions);
      ghost var dropped := false;
      while |sessions| >= maxSessions && rows != []
        invariant Valid()
        invariant !dropped ==> sessions == old(sessions) && rows == ClosedRows(sessions)
        invariant dropped ==> |sessions| < maxSessions
        invariant dropped ==>
                    exists k: nat :: LeastRecentClosed(old(sessions), k) && sessions == Without(old(sessions), k)
        decreases |rows|
      {
        var k := Find(rows[0].id);
        assert rows[0] in rows;
        FrontIsStalest(sessions, rows, k);
        WithoutKeeps(sessions, k);
        sessions := Without(sessions, k);
        rows := rows[1..];
        dropped := true;
      }
    }

    /** A refused start changes nothing; an accepted one adds the new session after any eviction. */
    method StartSession(id: string, user: string, channels: seq<string>, initial: string, now: int) returns (r: Result)
      requires Valid() && forall s | s in sessions :: s.id != id
      modifies this`sessions
      ensures Valid()
      ensures r.Err? ==> sessions == old(sessions)
      ensures r.Ok? <==>
                && Strip(user) != "" && NormalizeChannels(channels).Some? && StartState(initial).Some?
                && (|old(sessions)| < maxSessions || !NoneClosed(old(sessions)))
      ensures r.Ok? ==>
                && r.session == Begun(id, Strip(user), NormalizeChannels(channels).value, StartState(initial).value,
                                      now)
                && (if |old(sessions)| < maxSessions then sessions == old(sessions) + [r.session]
                    else exists k: nat :: LeastRecentClosed(old(sessions), k)
                                          && sessions == Without(old(sessions), k) + [r.session])
    {
      if Strip(user) == "" {
        return Err(NoUser);
      }
      var resolved := NormalizeChannels(channels);
      if resolved.None? {
        return Err(BadChannel);
      }
      var target := StartState(initial);
      if target.None? {
        return Err(BadState);
      }
      EvictClosedIfNeeded();
      if |sessions| >= maxSessions {
        return Err(Full);
      }
      var session := Begun(id, Strip(user), resolved.value, target.value, now);
      BegunIsConsistent(id, Strip(user), resolved.value, target.value, now);
      sessions := sessions + [session];
      r := Ok(session);
    }

    /** Moves one session along the table, or refuses and changes nothing. */
    method TransitionSession(id: string, to: string, reason: string, now: int) returns (r: Result)
      requires Valid()
      modifies this`sessions
      ensures Valid()
      ensures r.Err? ==> sessions == old(sessions)
      ensures r.Ok? <==> exists k :: CanTransit(old(sessions), k, Strip(id), to)
      ensures r.Ok? ==>
                exists k ::
                  && CanTransit(old(sessions), k, Strip(id), to)
                  && r.session == Transit(old(sessions)[k], ParseState(to).value, Reason(reason), now)
                  && sessions == old(sessions)[k := r.session]
    {
      if Strip(id) == "" {
        return Err(NoId);
      }
      var k := Find(Strip(id));
      if k < 0 {
        return Err(NoSession);
      }
      var target := ParseState(to);
      if target.None? {
        return Err(BadState);
      }
      var session := sessions[k];
      if target.value !in Allowed(session.state) {
        return Err(NotAllowed);
      }
      assert CanTransit(sessions, k, Strip(id), to);
      TransitKeepsConsistent(session, target.value, Reason(reason), now);
      r := Ok(Transit(session, target.value, Reason(reason), now));
      sessions := sessions[k := r.session];
    }

    /** Counts an event on an enabled channel of an open session, or refuses and changes nothing. */
    method RecordActivity(id: string, channel: string, event: string, now: int) returns (r: Result)
      requires Valid()
      modifies this`sessions
      ensures Valid()
      ensures r.Err? ==> sessions == old(sessions)
      ensures r.Ok? <==> Strip(event) != "" && exists k :: CanRecord(old(sessions), k, Strip(id), channel)
      ensures r.Ok? ==>
                exists k ::
                  && CanRecord(old(sessions), k, Strip(id), channel)
                  && r.session == Active(old(sessions)[k], ParseChannel(channel).value, now)
                  && sessions == old(sessions)[k := r.session]
    {
      if Strip(id) == "" {
        return Err(NoId);
      }
      var c := ParseChannel(channel);
      if c.None? {
        return Err(BadChannel);
      }
      if Strip(event) == "" {
        return Err(NoEvent);
      }
      var k := Find(Strip(id));
      if k < 0 {
        return Err(NoSession);
      }
      var session := sessions[k];
      if session.state == Closed {
        return Err(IsClosed);
      }
      if c.value !in session.channels {
        return Err(ChannelOff);
      }
      assert Consistent(session);
      assert CanRecord(sessions, k, Strip(id), channel);
      ActiveKeepsConsistent(session, c.value, now);
      r := Ok(Active(session, c.value, now));
      sessions := sessions[k := r.session];
    }
  }
}
