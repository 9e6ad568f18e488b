/** Which session the one timer of a source ends. Alarms, deadlines and closings of a source are single
    steps here; a source may have several recording sessions, because an alarm after the hard deadline
    of one opens another. */
module AlarmClipDeadlines {
  import opened Wrappers
  import opened AlarmClipTables
  import opened AlarmClipProtocol
  import opened AlarmClipRuntime

  // --- The order of the recording sessions of a source ---

  // `outrun` holds the sessions during whose recording an alarm opened another one of their source,
  // unless an alarm joined them since; the current session of a source is not among them.
  ghost predicate IsCurrent(t: Tables, outrun: set<string>, source: string, id: string) {
    IsRecordingOf(t, source, id) && id !in outrun
  }

  ghost predicate OrderOk(cfg: Config, t: Tables, outrun: set<string>) {
    && (forall id | id in t.sessions :: t.sessions[id].hardDeadlineAt == t.sessions[id].startedAt + cfg.maxSession * SECOND)
    && (forall a, b, source | IsRecordingOf(t, source, a) && IsRecordingOf(t, source, b) && a != b ::
          t.sessions[a].startedAt != t.sessions[b].startedAt)
    && (forall a, b, source | IsCurrent(t, outrun, source, a) && IsRecordingOf(t, source, b) ::
          t.sessions[b].startedAt <= t.sessions[a].startedAt)
  }

  function Recordings(t: Tables, source: string): set<string> {
    set id | id in t.sessions && IsRecordingOf(t, source, id)
  }

  // The sessions outrun after an alarm.
  function OutrunAfter(t: Tables, outrun: set<string>, alarm: Alarm, found: Option<string>, freshId: string): set<string>
    requires found.Some? ==> found.value in t.sessions
  {
    var id := Target(t, alarm, found, freshId);
    (if id in t.sessions then outrun else outrun + Recordings(t, alarm.source)) - {id}
  }

  // The query for the active session returns the current one.
  lemma CurrentIsActive(cfg: Config, t: Tables, outrun: set<string>, source: string, id: string, found: Option<string>)
    requires OrderOk(cfg, t, outrun) && IsCurrent(t, outrun, source, id) && IsActive(t, source, found)
    ensures found == Some(id)
  {
    assert IsRecordingOf(t, source, id);
    if found.Some? { assert IsRecordingOf(t, source, found.value); }
  }

  // After an alarm the session it joined is the current one of its source, and those of other sources stay.
  lemma OrderAfterAlarm(cfg: Config, t: Tables, outrun: set<string>, alarm: Alarm, found: Option<string>, freshId: string)
    requires ValidConfig(cfg) && OrderOk(cfg, t, outrun) && IsActive(t, alarm.source, found)
    requires alarm.events != [] && freshId !in t.sessions
    ensures var after, left, id := StartOrExtend(t, cfg, alarm, found, freshId), OutrunAfter(t, outrun, alarm, found, freshId),
        Target(t, alarm, found, freshId);
      && OrderOk(cfg, after, left) && IsCurrent(after, left, alarm.source, id)
      && forall k, source | IsCurrent(after, left, source, k) && k != id :: source != alarm.source && IsCurrent(t, outrun, source, k)
  {
    var after, left, id := StartOrExtend(t, cfg, alarm, found, freshId), OutrunAfter(t, outrun, alarm, found, freshId),
      Target(t, alarm, found, freshId);
    forall k, source | k != id ensures IsRecordingOf(after, source, k) <==> IsRecordingOf(t, source, k) {}
    forall k | IsRecordingOf(t, alarm.source, k) && k != id
      ensures after.sessions[k].startedAt < after.sessions[id].startedAt && k in left
    {
      assert found.Some? && t.sessions[k].startedAt <= t.sessions[found.value].startedAt;
      if id == found.value && k !in outrun { CurrentIsActive(cfg, t, outrun, alarm.source, k, found); }
    }
    forall a, b, source | IsRecordingOf(after, source, a) && IsRecordingOf(after, source, b) && a != b
      ensures after.sessions[a].startedAt != after.sessions[b].startedAt
    {
      if a != id && b != id { assert IsRecordingOf(t, source, a) && IsRecordingOf(t, source, b); }
    }
    forall a, b, source | IsCurrent(after, left, source, a) && IsRecordingOf(after, source, b)
      ensures after.sessions[b].startedAt <= after.sessions[a].startedAt
    {
      if a != id { assert IsCurrent(t, outrun, source, a) && b != id && IsRecordingOf(t, source, b); }
    }
  }

  // `after` differs from `t` in statuses and clips only, and no session went back to recording.
  ghost predicate OnlyEnds(t: Tables, after: Tables) {
    && after.sessions.Keys == t.sessions.Keys
    && forall id | id in t.sessions :: var was, row := t.sessions[id], after.sessions[id];
      && row.startedAt == was.startedAt && row.hardDeadlineAt == was.hardDeadlineAt && row.source == was.source
      && row.expectedEndAt == was.expectedEndAt && (row.status.Recording? ==> was.status.Recording?)
  }

  lemma OrderAfterEnds(cfg: Config, t: Tables, after: Tables, outrun: set<string>)
    requires OrderOk(cfg, t, outrun) && OnlyEnds(t, after)
    ensures OrderOk(cfg, after, outrun)
    ensures forall id, source | IsRecordingOf(after, source, id) :: IsRecordingOf(t, source, id)
  {
    forall id, source | IsRecordingOf(after, source, id) ensures IsRecordingOf(t, source, id) {}
    forall id, source | IsCurrent(after, outrun, source, id) ensures IsCurrent(t, outrun, source, id) {}
  }

  // --- One step at a time ---

  /** `outrun` and `vain` are history; `vain` holds the sources whose timer was used up since their
      last alarm without ending a session, because a query or the first write failed. */
  datatype Server = Server(tables: Tables, timers: map<string, Timer>, outrun: set<string>, vain: set<string>)

  // `ok` says whether the query and the first write of the finalize succeed.
  datatype Move =
    | Raise(alarm: Alarm, found: Option<string>, freshId: string)
    | Expire(source: string, found: Option<string>, ok: bool, outcome: Outcome)
    | Stop(source: string, found: Option<string>, ok: bool, outcome: Outcome)

  ghost predicate Starts(s: Server) {
    s == Server(Tables(map[], {}, map[]), map[], {}, {})
  }

  ghost predicate Possible(s: Server, m: Move) {
    match m
    case Raise(alarm, found, freshId) =>
      alarm.events != [] && IsActive(s.tables, alarm.source, found) && freshId !in s.tables.sessions
    case Expire(source, found, _, _) => source in s.timers && IsActive(s.tables, source, found)
    case Stop(source, found, _, _) => IsActive(s.tables, source, found)
  }

  function Ended(s: Server, source: string, found: Option<string>, ok: bool, o: Outcome): Server {
    s.(timers := s.timers - {source},
       tables := if ok && found.Some? then Finalized(s.tables, found.value, o) else s.tables,
       vain := if ok then s.vain else s.vain + {source})
  }

  ghost function Next(cfg: Config, s: Server, m: Move): Server
    requires Possible(s, m)
  {
    match m
    case Raise(alarm, found, freshId) =>
      var after, id := StartOrExtend(s.tables, cfg, alarm, found, freshId), Target(s.tables, alarm, found, freshId);
      Server(after, Rearmed(s.timers, alarm.source, after.sessions[id].expectedEndAt + cfg.settle * SECOND),
             OutrunAfter(s.tables, s.outrun, alarm, found, freshId), s.vain - {alarm.source})
    case Expire(source, found, ok, o) => Ended(s, source, found, ok, o)
    case Stop(source, found, ok, o) => Ended(s, source, found, ok, o)
  }

  ghost predicate Run(cfg: Config, states: seq<Server>, moves: seq<Move>) {
    && |states| == |moves| + 1
    && forall i | 0 <= i < |moves| :: Possible(states[i], moves[i]) && states[i + 1] == Next(cfg, states[i], moves[i])
  }

  // --- Which session a timer belongs to ---

  // The timer of `source` is set to the end of session `id`.
  ghost predicate ArmedFor(cfg: Config, s: Server, source: string, id: string) {
    && IsCurrent(s.tables, s.outrun, source, id) && source in s.timers
    && s.timers[source].deadline == s.tables.sessions[id].expectedEndAt + cfg.settle * SECOND
  }

  ghost predicate TimersOk(cfg: Config, s: Server) {
    && (forall source | source in s.timers :: source !in s.vain && exists id :: ArmedFor(cfg, s, source, id))
    && (forall id, source | IsCurrent(s.tables, s.outrun, source, id) :: source in s.timers || source in s.vain)
  }

  ghost predicate ServerOk(cfg: Config, s: Server) {
    OrderOk(cfg, s.tables, s.outrun) && TimersOk(cfg, s)
  }

  lemma RaiseKeeps(cfg: Config, s: Server, m: Move)
    requires ValidConfig(cfg) && ServerOk(cfg, s) && Possible(s, m) && m.Raise?
    ensures ServerOk(cfg, Next(cfg, s, m))
  {
    var s', id := Next(cfg, s, m), Target(s.tables, m.alarm, m.found, m.freshId);
    OrderAfterAlarm(cfg, s.tables, s.outrun, m.alarm, m.found, m.freshId);
    assert ArmedFor(cfg, s', m.alarm.source, id);
    forall source | source in s'.timers && source != m.alarm.source ensures exists k :: ArmedFor(cfg, s', source, k) {
      var k :| ArmedFor(cfg, s, source, k);
      assert k != id;
      assert ArmedFor(cfg, s', source, k);
    }
  }

  lemma FinalizedOnlyEnds(t: Tables, id: string, o: Outcome)
    ensures OnlyEnds(t, Finalized(t, id, o))
    ensures forall other | other in t.sessions && other != id :: Finalized(t, id, o).sessions[other] == t.sessions[other]
    ensures id in t.sessions && t.sessions[id].status.Recording? ==> !Finalized(t, id, o).sessions[id].status.Recording?
  {}

  lemma EndIsEnds(s: Server, source: string, found: Option<string>, ok: bool, o: Outcome)
    ensures OnlyEnds(s.tables, Ended(s, source, found, ok, o).tables)
    ensures forall id | id in s.tables.sessions && found != Some(id) :: Ended(s, source, found, ok, o).tables.sessions[id] == s.tables.sessions[id]
  {
    hide Finalized;
    if ok && found.Some? { FinalizedOnlyEnds(s.tables, found.value, o); }
  }

  // The timer of another source still belongs to the same session.
  lemma OthersArmed(cfg: Config, s: Server, source: string, found: Option<string>, ok: bool, o: Outcome, other: string, id: string)
    requires IsActive(s.tables, source, found) && ArmedFor(cfg, s, other, id) && other != source
    ensures ArmedFor(cfg, Ended(s, source, found, ok, o), other, id)
  {
    hide Finalized;
    EndIsEnds(s, source, found, ok, o);
  }

  // The session ended is the current one of the source, if there is one.
  lemma NoneLeft(cfg: Config, s: Server, source: string, found: Option<string>, ok: bool, o: Outcome, id: string)
    requires OrderOk(cfg, s.tables, s.outrun) && IsActive(s.tables, source, found)
    requires IsCurrent(s.tables, s.outrun, source, id) && IsCurrent(Ended(s, source, found, ok, o).tables, s.outrun, source, id)
    ensures !ok
  {
    hide Finalized, OrderOk;
    CurrentIsActive(cfg, s.tables, s.outrun, source, id, found);
    if ok { FinalizedOnlyEnds(s.tables, id, o); }
  }

  lemma EndKeeps(cfg: Config, s: Server, source: string, found: Option<string>, ok: bool, o: Outcome)
    requires ServerOk(cfg, s) && IsActive(s.tables, source, found)
    ensures ServerOk(cfg, Ended(s, source, found, ok, o))
  {
    hide Finalized, OrderOk, OnlyEnds, ArmedFor, IsActive;
    var s' := Ended(s, source, found, ok, o);
    EndIsEnds(s, source, found, ok, o);
    OrderAfterEnds(cfg, s.tables, s'.tables, s.outrun);
    forall other | other in s'.timers ensures exists k :: ArmedFor(cfg, s', other, k) {
      var k :| ArmedFor(cfg, s, other, k);
      OthersArmed(cfg, s, source, found, ok, o, other, k);
    }
    forall id, other | IsCurrent(s'.tables, s'.outrun, other, id) ensures other in s'.timers || other in s'.vain {
      assert IsCurrent(s.tables, s.outrun, other, id);
      if other == source { NoneLeft(cfg, s, source, found, ok, o, id); }
    }
  }

  lemma {:induction false} RunKeepsServer(cfg: Config, states: seq<Server>, moves: seq<Move>, n: nat)
    requires ValidConfig(cfg) && Run(cfg, states, moves) && ServerOk(cfg, states[0]) && n <= |moves|
    ensures ServerOk(cfg, states[n])
  {
    hide ServerOk;
    if n > 0 {
      RunKeepsServer(cfg, states, moves, n - 1);
      var m := moves[n - 1];
      match m
      case Raise(_, _, _) => RaiseKeeps(cfg, states[n - 1], m);
      case Expire(source, found, ok, o) => EndKeeps(cfg, states[n - 1], source, found, ok, o);
      case Stop(source, found, ok, o) => EndKeeps(cfg, states[n - 1], source, found, ok, o);
    }
  }

  // The timer of the session's source runs, and when it expires it can only end this session.
  ghost predicate Served(s: Server, source: string, id: string) {
    source in s.timers && forall found :: IsActive(s.tables, source, found) ==> found == Some(id)
  }

  /** In every run of alarms, deadlines and closings, the next deadline of its source ends a recording
      session if and only if no alarm opened another session of the source while it was recording,
      or one joined it since, and the timer was not used up in vain. Its timer is then set to its end. */
  lemma ServedIff(cfg: Config, states: seq<Server>, moves: seq<Move>, source: string, id: string)
    requires ValidConfig(cfg) && Run(cfg, states, moves) && Starts(states[0])
    requires IsRecordingOf(states[|moves|].tables, source, id)
    ensures var s := states[|moves|];
      && (Served(s, source, id) <==> id !in s.outrun && source !in s.vain)
      && (Served(s, source, id) ==> s.timers[source].deadline == s.tables.sessions[id].expectedEndAt + cfg.settle * SECOND)
  {
    RunKeepsServer(cfg, states, moves, |moves|);
    var s := states[|moves|];
    assert id !in s.outrun ==> IsCurrent(s.tables, s.outrun, source, id);
    if source in s.timers {
      var k :| ArmedFor(cfg, s, source, k);
      assert IsActive(s.tables, source, Some(k));
      forall found | IsActive(s.tables, source, found) ensures found == Some(k) {
        CurrentIsActive(cfg, s.tables, s.outrun, source, k, found);
      }
      if id !in s.outrun { CurrentIsActive(cfg, s.tables, s.outrun, source, id, Some(k)); }
    }
  }

  // The move joins an alarm to session `id`, or closes its source while it is the active session.
  ghost predicate Reaches(s: Server, m: Move, id: string)
    requires Possible(s, m)
  {
    match m
    case Raise(alarm, found, freshId) => Target(s.tables, alarm, found, freshId) == id
    case Expire(_, _, _, _) => false
    case Stop(_, found, _, _) => found == Some(id)
  }

  lemma OutrunStep(cfg: Config, s: Server, m: Move, source: string, id: string)
    requires ValidConfig(cfg) && ServerOk(cfg, s) && Possible(s, m) && !Reaches(s, m, id)
    requires IsRecordingOf(s.tables, source, id) && id in s.outrun
    ensures var s' := Next(cfg, s, m); id in s'.outrun && id in s'.tables.sessions && s'.tables.sessions[id] == s.tables.sessions[id]
  {
    match m
    case Raise(_, _, _) =>
    case Expire(other, found, ok, o) =>
      var k :| ArmedFor(cfg, s, other, k);
      CurrentIsActive(cfg, s.tables, s.outrun, other, k, found);
      FinalizedOnlyEnds(s.tables, k, o);
    case Stop(_, found, ok, o) =>
      if found.Some? { FinalizedOnlyEnds(s.tables, found.value, o); }
  }

  /** An outrun session is ended by no timer: it stays exactly as it is, recording, in every
      continuation in which no alarm joins it and nobody closes its source while it is the active session. */
  lemma {:induction false} OutrunStays(cfg: Config, states: seq<Server>, moves: seq<Move>, source: string, id: string, n: nat)
    requires ValidConfig(cfg) && Run(cfg, states, moves) && ServerOk(cfg, states[0]) && n <= |moves|
    requires IsRecordingOf(states[0].tables, source, id) && id in states[0].outrun
    requires forall i | 0 <= i < |moves| :: !Reaches(states[i], moves[i], id)
    ensures id in states[n].tables.sessions && states[n].tables.sessions[id] == states[0].tables.sessions[id]
    ensures id in states[n].outrun
  {
    if n > 0 {
      OutrunStays(cfg, states, moves, source, id, n - 1);
      RunKeepsServer(cfg, states, moves, n - 1);
      OutrunStep(cfg, states[n - 1], moves[n - 1], source, id);
    }
  }

  /** An alarm joins an existing session exactly when it is the active one and the alarm's clock reading
      is before its hard deadline: so none with a later reading ever takes an outrun session back. */
  lemma JoinsIff(cfg: Config, s: Server, m: Move, id: string)
    requires Possible(s, m) && m.Raise? && id in s.tables.sessions
    ensures Reaches(s, m, id) <==> m.found == Some(id) && m.alarm.now < s.tables.sessions[id].hardDeadlineAt
  {}

  // --- A session nobody ends ---

  const OPENER := Alarm("cam", 0, 0, 3, 600, ["e1"])
  const LATECOMER := Alarm("cam", 181 * SECOND, 181 * SECOND, 3, 4, ["e2"])

  /** An alarm one second after the hard deadline, and one before the timer, opens a second session and
      takes the timer over: the first one is left recording without any. */
  lemma OrphanExample(init: Server, o: Outcome) returns (states: seq<Server>, moves: seq<Move>)
    requires Starts(init) && !o.Aborted?
    ensures Run(DEFAULTS, states, moves) && states[0] == init
    ensures var s := states[|moves|];
      && IsRecordingOf(s.tables, "cam", "s1") && "s1" in s.outrun && s.timers == map[]
      && "s2" in s.tables.sessions && Terminal(s.tables.sessions["s2"].status)
  {
    var first := Next(DEFAULTS, init, Raise(OPENER, None, "s1"));
    assert first.tables.sessions == map["s1" := OpenedRow(DEFAULTS, OPENER)];
    assert IsActive(first.tables, "cam", Some("s1"));
    var taken := Next(DEFAULTS, first, Raise(LATECOMER, Some("s1"), "s2"));
    assert taken.tables.sessions == map["s1" := OpenedRow(DEFAULTS, OPENER), "s2" := OpenedRow(DEFAULTS, LATECOMER)];
    assert IsActive(taken.tables, "cam", Some("s2"));
    var m := Expire("cam", Some("s2"), true, o);
    var ended := Next(DEFAULTS, taken, m);
    FinalizedOnlyEnds(taken.tables, "s2", o);
    states, moves := [init, first, taken, ended], [Raise(OPENER, None, "s1"), Raise(LATECOMER, Some("s1"), "s2"), m];
  }
}
