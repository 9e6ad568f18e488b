/** Every interleaving of start-or-extend transactions with the separate database
    statements of the one finalizer the mutex admits, including statements that fail
    and crashes of the server between any two of them. */
module AlarmClipProtocol {
  import opened Wrappers
  import opened AlarmClipTables

  // What looking up the source and collecting and copying the clip files comes to;
  // Aborted stands for the two errors that leave the session closing.
  datatype Outcome =
    | SourceMissing
    | Aborted
    | CollectError
    | NoFiles
    | CopyError
    | Copied(path: string, files: string)

  function OutcomeStatus(o: Outcome): Status
    requires !o.Aborted?
  {
    match o
    case SourceMissing => ClosedEmpty
    case NoFiles => ClosedEmpty
    case CollectError => Failed
    case CopyError => Failed
    case Copied(_, _) => Closed
  }

  function OutcomePath(o: Outcome): string { if o.Copied? then o.path else "" }

  function OutcomeFiles(o: Outcome): string { if o.Copied? then o.files else NO_FILES }

  // On these branches the finalizer discards the error of the event update and goes on.
  predicate IgnoresEventError(o: Outcome) {
    o.SourceMissing? || o.CollectError? || o.CopyError?
  }

  // Where the finalizer is between two statements; `snap` is the row it loaded.
  datatype Finalizer =
    | Idle
    | Loaded(id: string, snap: Session)
    | Marked(id: string, snap: Session)
    | Listed(id: string, snap: Session, events: set<string>)
    | Wrote(id: string, snap: Session, outcome: Outcome)

  // One alarm that committed: the session it joined, its clock reading and its post seconds.
  datatype Arrival = Arrival(session: string, at: int, post: int)

  // What an event update writes besides the session id.
  datatype Clip = Clip(path: string, files: string)

  function OutcomeClip(o: Outcome): Clip { Clip(OutcomePath(o), OutcomeFiles(o)) }

  /** `arrivals`, `skipped` and `written` are history: all committed alarms, the sessions whose last
      event update failed and was discarded, and what the last successful event update of a session
      wrote. `clock` is the latest clock reading of an alarm. */
  datatype System = System(
    tables: Tables, fin: Finalizer, clock: int, arrivals: set<Arrival>, skipped: set<string>, written: map<string, Clip>)

  datatype Step =
    | Attach(alarm: Alarm, found: Option<string>, freshId: string)
    | NewEvent(event: string)
    | Load(id: string)
    | Mark(ok: bool)
    | List(ok: bool)
    | Update(outcome: Outcome, ok: bool)
    | Close(ok: bool)
    | Crash

  predicate IsInit(s: System) {
    s.tables == Tables(map[], {}, map[]) && s.fin.Idle? && s.arrivals == {} && s.skipped == {} && s.written == map[]
  }

  ghost predicate Enabled(s: System, step: Step) {
    match step
    case Attach(alarm, found, freshId) =>
      && alarm.events != [] && (forall e | e in alarm.events :: e != "")
      && IsActive(s.tables, alarm.source, found)
      && freshId != "" && freshId !in s.tables.sessions
    case NewEvent(e) =>
      e != "" && e !in s.tables.events && (forall r | r in s.tables.relations :: r.event != e)
    case Load(id) => s.fin.Idle? && id in s.tables.sessions && !Terminal(s.tables.sessions[id].status)
    case Mark(_) => s.fin.Loaded? && s.fin.id in s.tables.sessions
    case List(_) => s.fin.Marked?
    case Update(_, _) => s.fin.Listed?
    case Close(_) => s.fin.Wrote? && s.fin.id in s.tables.sessions && !s.fin.outcome.Aborted?
    case Crash => true
  }

  ghost function Apply(cfg: Config, s: System, step: Step): System
    requires Enabled(s, step)
  {
    match step
    case Attach(alarm, found, freshId) =>
      s.(tables := StartOrExtend(s.tables, cfg, alarm, found, freshId),
         clock := Max(s.clock, alarm.now),
         arrivals := s.arrivals + {Arrival(Target(s.tables, alarm, found, freshId), alarm.now, PostSeconds(cfg, alarm))})
    case NewEvent(e) =>
      s.(tables := s.tables.(events := s.tables.events[e := Event("", false, "", "")]))
    case Load(id) => s.(fin := Loaded(id, s.tables.sessions[id]))
    case Mark(ok) =>
      if s.fin.snap.status.Closing? then s.(fin := Marked(s.fin.id, s.fin.snap))
      else if ok then s.(tables := MarkClosing(s.tables, s.fin.id), fin := Marked(s.fin.id, s.fin.snap))
      else s.(fin := Idle)
    case List(ok) =>
      s.(fin := if ok then Listed(s.fin.id, s.fin.snap, EventsOf(s.tables, s.fin.id)) else Idle)
    case Update(o, ok) =>
      if o.Aborted? then s.(fin := Idle)
      else if ok then
        s.(tables := WriteEvents(s.tables, s.fin.id, s.fin.events, OutcomePath(o), OutcomeFiles(o)),
           fin := Wrote(s.fin.id, s.fin.snap, o),
           skipped := s.skipped - {s.fin.id}, written := s.written[s.fin.id := OutcomeClip(o)])
      else if IgnoresEventError(o) then
        s.(fin := Wrote(s.fin.id, s.fin.snap, o), skipped := s.skipped + {s.fin.id})
      else s.(fin := Idle)
    case Close(ok) =>
      var o := s.fin.outcome;
      if ok then
        s.(tables := WriteSession(s.tables, s.fin.id, OutcomeStatus(o), OutcomePath(o), OutcomeFiles(o)), fin := Idle)
      else s.(fin := Idle)
    case Crash => s.(fin := Idle)
  }

  // --- Runs ---

  ghost predicate IsRun(cfg: Config, s: System, steps: seq<Step>)
    decreases |steps|
  {
    steps != [] ==> Enabled(s, steps[0]) && IsRun(cfg, Apply(cfg, s, steps[0]), steps[1..])
  }

  ghost function After(cfg: Config, s: System, steps: seq<Step>): System
    requires IsRun(cfg, s, steps)
    decreases |steps|
  {
    if steps == [] then s else After(cfg, Apply(cfg, s, steps[0]), steps[1..])
  }

  // --- Links between the tables ---

  // An event names a session only if the relation table links them, and a linked event names some session.
  ghost predicate LinksOk(t: Tables) {
    && (forall e | e in t.events && t.events[e].session != "" :: Relation(t.events[e].session, e) in t.relations)
    && (forall r | r in t.relations :: r.session in t.sessions && r.session != "" && r.event != "")
    && (forall r | r in t.relations && r.event in t.events :: t.events[r.event].session != "")
    && "" !in t.sessions
  }

  lemma LinksStep(cfg: Config, s: System, step: Step)
    requires LinksOk(s.tables) && Enabled(s, step) && FinalizerOk(s)
    ensures LinksOk(Apply(cfg, s, step).tables)
  {
    var t := Apply(cfg, s, step).tables;
    match step
    case Attach(alarm, found, freshId) =>
      forall e | e in t.events && t.events[e].session != ""
        ensures Relation(t.events[e].session, e) in t.relations
      {}
    case NewEvent(_) =>
    case Load(_) =>
    case Mark(_) =>
    case List(_) =>
    case Update(_, _) =>
      forall e | e in t.events && t.events[e].session != ""
        ensures Relation(t.events[e].session, e) in t.relations
      {}
    case Close(_) =>
    case Crash =>
  }

  // --- What the finalizer knows between its statements ---

  // `row` is the loaded row `snap`, possibly extended since.
  predicate ExtendedFrom(snap: Session, row: Session) {
    && snap == row.(status := snap.status, lastAlarmAt := snap.lastAlarmAt, expectedEndAt := snap.expectedEndAt)
    && snap.expectedEndAt <= row.expectedEndAt
  }

  // All events that name session `id` carry exactly this result.
  predicate Delivered(t: Tables, id: string, path: string, files: string) {
    forall e | e in t.events && t.events[e].session == id :: t.events[e] == Event(id, true, path, files)
  }

  ghost predicate FinalizerOk(s: System) {
    !s.fin.Idle? ==>
      && s.fin.id in s.tables.sessions
      && var row := s.tables.sessions[s.fin.id];
      && ExtendedFrom(s.fin.snap, row)
      && !Terminal(s.fin.snap.status)
      && match s.fin
         case Loaded(_, snap) => row.status == snap.status
         case Marked(_, _) => row.status.Closing?
         case Listed(id, _, events) => row.status.Closing? && events == EventsOf(s.tables, id)
         case Wrote(id, _, o) =>
           && row.status.Closing? && !o.Aborted?
           && (id !in s.skipped ==> Delivered(s.tables, id, OutcomePath(o), OutcomeFiles(o)))
  }

  lemma AttachKeepsOthers(cfg: Config, s: System, step: Step, id: string)
    requires step.Attach? && Enabled(s, step) && LinksOk(s.tables)
    requires id in s.tables.sessions && !s.tables.sessions[id].status.Recording?
    ensures var t := Apply(cfg, s, step).tables;
      && t.sessions[id] == s.tables.sessions[id]
      && EventsOf(t, id) == EventsOf(s.tables, id)
      && forall e | e in t.events && t.events[e].session == id :: e in s.tables.events && t.events[e] == s.tables.events[e]
  {}

  lemma FinalizerStep(cfg: Config, s: System, step: Step)
    requires LinksOk(s.tables) && FinalizerOk(s) && Enabled(s, step)
    ensures FinalizerOk(Apply(cfg, s, step))
  {
    var s' := Apply(cfg, s, step);
    match step
    case Attach(alarm, found, freshId) =>
      if !s.fin.Idle? && !s.tables.sessions[s.fin.id].status.Recording? {
        AttachKeepsOthers(cfg, s, step, s.fin.id);
      }
    case NewEvent(_) =>
    case Load(_) =>
    case Mark(_) =>
    case List(_) =>
    case Update(o, ok) =>
      if s'.fin.Wrote? && ok {
        forall e | e in s'.tables.events && s'.tables.events[e].session == s.fin.id
          ensures s'.tables.events[e] == Event(s.fin.id, true, OutcomePath(o), OutcomeFiles(o))
        {}
      }
    case Close(_) =>
    case Crash =>
  }

  // --- Delivery ---

  ghost predicate ClipsOk(s: System) {
    forall id | id in s.tables.sessions && Terminal(s.tables.sessions[id].status) && id !in s.skipped ::
      Delivered(s.tables, id, s.tables.sessions[id].clipPath, s.tables.sessions[id].clipFiles)
  }

  lemma ClipsStep(cfg: Config, s: System, step: Step)
    requires LinksOk(s.tables) && FinalizerOk(s) && ClipsOk(s) && Enabled(s, step)
    ensures ClipsOk(Apply(cfg, s, step))
  {
    var s' := Apply(cfg, s, step);
    forall id | id in s'.tables.sessions && Terminal(s'.tables.sessions[id].status) && id !in s'.skipped
      ensures Delivered(s'.tables, id, s'.tables.sessions[id].clipPath, s'.tables.sessions[id].clipFiles)
    {
      match step
      case Attach(_, _, _) => AttachKeepsOthers(cfg, s, step, id);
      case NewEvent(_) =>
      case Load(_) =>
      case Mark(_) =>
      case List(_) =>
      case Update(_, _) =>
      case Close(_) =>
      case Crash =>
    }
  }

  // What the events naming a session show: the last successful update of that session, or nothing yet.
  predicate Shows(s: System, id: string) {
    if id in s.written then Delivered(s.tables, id, s.written[id].path, s.written[id].files)
    else forall e | e in s.tables.events && s.tables.events[e].session == id :: s.tables.events[e] == Event(id, false, "", NO_FILES)
  }

  ghost predicate WrittenOk(s: System) {
    && (forall id | id in s.tables.sessions :: Shows(s, id))
    && (forall id | id in s.written :: id in s.tables.sessions && !s.tables.sessions[id].status.Recording?)
  }

  lemma ShowsAfterAttach(cfg: Config, s: System, step: Step, id: string)
    requires LinksOk(s.tables) && WrittenOk(s) && Enabled(s, step) && step.Attach?
    requires id in Apply(cfg, s, step).tables.sessions
    ensures Shows(Apply(cfg, s, step), id)
  {
    if id in s.tables.sessions {
      assert Shows(s, id);
      if !s.tables.sessions[id].status.Recording? { AttachKeepsOthers(cfg, s, step, id); }
    }
  }

  lemma ShowsAfterOther(cfg: Config, s: System, step: Step, id: string)
    requires LinksOk(s.tables) && FinalizerOk(s) && WrittenOk(s) && Enabled(s, step) && !step.Attach?
    requires id in Apply(cfg, s, step).tables.sessions
    ensures Shows(Apply(cfg, s, step), id)
  {
    assert Shows(s, id);
  }

  lemma WrittenStep(cfg: Config, s: System, step: Step)
    requires LinksOk(s.tables) && FinalizerOk(s) && WrittenOk(s) && Enabled(s, step)
    ensures WrittenOk(Apply(cfg, s, step))
  {
    var s' := Apply(cfg, s, step);
    forall id | id in s'.tables.sessions ensures Shows(s', id) {
      if step.Attach? { ShowsAfterAttach(cfg, s, step, id); } else { ShowsAfterOther(cfg, s, step, id); }
    }
  }

  // --- How a session ends ---

  /** Closing a session leaves it closed exactly when clip files were copied, empty when there were none
      or no source, failed when collecting or copying failed; only a closed one shows a clip. */
  lemma CloseSaysWhy(cfg: Config, s: System)
    requires FinalizerOk(s) && Enabled(s, Close(true))
    ensures var o, row := s.fin.outcome, Apply(cfg, s, Close(true)).tables.sessions[s.fin.id];
      && (row.status == Closed <==> o.Copied?)
      && (row.status == ClosedEmpty <==> o.NoFiles? || o.SourceMissing?)
      && (row.status == Failed <==> o.CollectError? || o.CopyError?)
      && (o.Copied? ==> row.clipPath == o.path && row.clipFiles == o.files)
      && (!o.Copied? ==> row.clipPath == "" && row.clipFiles == "[]")
  {}

  // Only closed sessions show a clip.
  ghost predicate ClipRowsOk(t: Tables) {
    forall id | id in t.sessions && t.sessions[id].status != Closed :: t.sessions[id].clipPath == "" && t.sessions[id].clipFiles == "[]"
  }

  lemma ClipRowsStep(cfg: Config, s: System, step: Step)
    requires ClipRowsOk(s.tables) && FinalizerOk(s) && Enabled(s, step)
    ensures ClipRowsOk(Apply(cfg, s, step).tables)
  {}

  /** A terminal session row is never written again by any step. */
  lemma TerminalIsAbsorbing(cfg: Config, s: System, step: Step, id: string)
    requires LinksOk(s.tables) && FinalizerOk(s) && Enabled(s, step)
    requires id in s.tables.sessions && Terminal(s.tables.sessions[id].status)
    ensures id in Apply(cfg, s, step).tables.sessions
    ensures Apply(cfg, s, step).tables.sessions[id] == s.tables.sessions[id]
  {}

  // --- Session times ---

  ghost predicate TimesOk(cfg: Config, t: Tables) {
    forall id | id in t.sessions :: var row := t.sessions[id];
      && row.startedAt <= row.expectedEndAt <= row.hardDeadlineAt
      && row.hardDeadlineAt == row.startedAt + cfg.maxSession * SECOND
      && 1 <= row.pre <= 600
  }

  // The end of the clip an alarm asks of the session it joined.
  function WantedEnd(row: Session, a: Arrival): int {
    Min(a.at + a.post * SECOND, row.hardDeadlineAt)
  }

  // Alarm `a` asked for exactly the end session `id` has now.
  predicate Attains(s: System, id: string, a: Arrival) {
    && a in s.arrivals && a.session == id && id in s.tables.sessions
    && WantedEnd(s.tables.sessions[id], a) == s.tables.sessions[id].expectedEndAt
  }

  // The expected end of every session is exactly the latest end its alarms ask for.
  ghost predicate ArrivalsOk(s: System) {
    && (forall a | a in s.arrivals :: a.session in s.tables.sessions
          && WantedEnd(s.tables.sessions[a.session], a) <= s.tables.sessions[a.session].expectedEndAt)
    && (forall id | id in s.tables.sessions :: exists a :: Attains(s, id, a))
  }

  lemma TimesStep(cfg: Config, s: System, step: Step)
    requires ValidConfig(cfg) && TimesOk(cfg, s.tables) && Enabled(s, step)
    ensures TimesOk(cfg, Apply(cfg, s, step).tables)
  {}

  lemma ArrivalsStep(cfg: Config, s: System, step: Step)
    requires ValidConfig(cfg) && ArrivalsOk(s) && TimesOk(cfg, s.tables) && Enabled(s, step)
    ensures ArrivalsOk(Apply(cfg, s, step))
  {
    var s' := Apply(cfg, s, step);
    if step.Attach? {
      var target := Target(s.tables, step.alarm, step.found, step.freshId);
      var mine := Arrival(target, step.alarm.now, PostSeconds(cfg, step.alarm));
      forall id | id in s'.tables.sessions
        ensures exists a :: Attains(s', id, a)
      {
        if !Attains(s', id, mine) {
          var a :| Attains(s, id, a);
          assert Attains(s', id, a);
        }
      }
    } else {
      forall id | id in s'.tables.sessions
        ensures exists a :: Attains(s', id, a)
      {
        var a :| Attains(s, id, a);
        assert Attains(s', id, a);
      }
    }
  }

  // --- The invariant of all runs ---

  ghost predicate Inv(cfg: Config, s: System) {
    && LinksOk(s.tables) && FinalizerOk(s) && ClipsOk(s) && WrittenOk(s) && TimesOk(cfg, s.tables) && ArrivalsOk(s)
    && ClipRowsOk(s.tables)
  }

  lemma InvStep(cfg: Config, s: System, step: Step)
    requires ValidConfig(cfg) && Inv(cfg, s) && Enabled(s, step)
    ensures Inv(cfg, Apply(cfg, s, step))
  {
    LinksStep(cfg, s, step);
    FinalizerStep(cfg, s, step);
    ClipsStep(cfg, s, step);
    WrittenStep(cfg, s, step);
    TimesStep(cfg, s, step);
    ArrivalsStep(cfg, s, step);
    ClipRowsStep(cfg, s, step);
  }

  lemma {:induction false} RunKeepsInv(cfg: Config, s: System, steps: seq<Step>)
    requires ValidConfig(cfg) && Inv(cfg, s) && IsRun(cfg, s, steps)
    ensures Inv(cfg, After(cfg, s, steps))
    decreases |steps|
  {
    if steps != [] {
      InvStep(cfg, s, steps[0]);
      RunKeepsInv(cfg, Apply(cfg, s, steps[0]), steps[1..]);
    }
  }

  predicate Named(t: Tables, id: string) {
    exists e :: e in t.events && t.events[e].session == id
  }

  /** After any run, the events naming a closed, closed_empty or failed session carry exactly its
      result if and only if there is none, or the last event update of that session that succeeded
      wrote that same path and files. */
  lemma DeliveredIff(cfg: Config, init: System, steps: seq<Step>, id: string)
    requires ValidConfig(cfg) && IsInit(init) && IsRun(cfg, init, steps)
    requires id in After(cfg, init, steps).tables.sessions && Terminal(After(cfg, init, steps).tables.sessions[id].status)
    ensures var s := After(cfg, init, steps);
      var row := s.tables.sessions[id];
      Delivered(s.tables, id, row.clipPath, row.clipFiles) <==>
      !Named(s.tables, id) || (id in s.written && s.written[id] == Clip(row.clipPath, row.clipFiles))
  {
    RunKeepsInv(cfg, init, steps);
    var s := After(cfg, init, steps);
    assert Shows(s, id);
  }

  /** They do whenever the last event update of the session was not a failed one whose error was
      discarded. An event attached to such a session and naming another one is attached to that
      other one too. */
  lemma ClipsAreDelivered(cfg: Config, init: System, steps: seq<Step>, r: Relation)
    requires ValidConfig(cfg) && IsInit(init) && IsRun(cfg, init, steps)
    requires var s := After(cfg, init, steps);
      r in s.tables.relations && r.event in s.tables.events && r.session !in s.skipped
    ensures var s := After(cfg, init, steps);
      && r.session in s.tables.sessions
      && var row, event := s.tables.sessions[r.session], s.tables.events[r.event];
      && (Terminal(row.status) && event.session == r.session ==>
            event == Event(r.session, true, row.clipPath, row.clipFiles))
      && (event.session != r.session ==> Relation(event.session, r.event) in s.tables.relations)
  {
    RunKeepsInv(cfg, init, steps);
  }

  // No event update fails with its error discarded.
  predicate UpdatesSucceed(steps: seq<Step>) {
    forall i | 0 <= i < |steps| :: !(steps[i].Update? && !steps[i].ok && IgnoresEventError(steps[i].outcome))
  }

  lemma {:induction false} NothingSkipped(cfg: Config, s: System, steps: seq<Step>)
    requires IsRun(cfg, s, steps) && UpdatesSucceed(steps) && s.skipped == {}
    ensures After(cfg, s, steps).skipped == {}
    decreases |steps|
  {
    if steps != [] {
      assert UpdatesSucceed(steps[1..]) by { assert forall i | 0 <= i < |steps| - 1 :: steps[1..][i] == steps[i + 1]; }
      assert !(steps[0].Update? && !steps[0].ok && IgnoresEventError(steps[0].outcome));
      NothingSkipped(cfg, Apply(cfg, s, steps[0]), steps[1..]);
    }
  }

  /** When no event update fails, the events of every finished session carry exactly its result. */
  lemma SuccessfulUpdatesDeliver(cfg: Config, init: System, steps: seq<Step>, id: string)
    requires ValidConfig(cfg) && IsInit(init) && IsRun(cfg, init, steps) && UpdatesSucceed(steps)
    requires id in After(cfg, init, steps).tables.sessions && Terminal(After(cfg, init, steps).tables.sessions[id].status)
    ensures var s := After(cfg, init, steps);
      Delivered(s.tables, id, s.tables.sessions[id].clipPath, s.tables.sessions[id].clipFiles)
  {
    RunKeepsInv(cfg, init, steps);
    NothingSkipped(cfg, init, steps);
  }

  /** From reading the relations until its last write, the finalizer works on exactly the
      events attached to its session, whatever alarms commit meanwhile. */
  lemma FinalizerMissesNoEvent(cfg: Config, init: System, steps: seq<Step>)
    requires ValidConfig(cfg) && IsInit(init) && IsRun(cfg, init, steps)
    requires After(cfg, init, steps).fin.Listed?
    ensures var s := After(cfg, init, steps);
      forall e :: e in s.fin.events <==> Relation(s.fin.id, e) in s.tables.relations
  {
    RunKeepsInv(cfg, init, steps);
  }

  /** On every run StartedAt <= ExpectedEnd <= HardDeadline = StartedAt + max, every alarm gets the
      end it asks for, and ExpectedEnd is no later than the latest end any of its alarms asks for. */
  lemma ExpectedEndIsLatestWanted(cfg: Config, init: System, steps: seq<Step>, id: string)
    requires ValidConfig(cfg) && IsInit(init) && IsRun(cfg, init, steps)
    requires id in After(cfg, init, steps).tables.sessions
    ensures var s := After(cfg, init, steps);
      var row := s.tables.sessions[id];
      && row.startedAt <= row.expectedEndAt <= row.hardDeadlineAt == row.startedAt + cfg.maxSession * SECOND
      && (forall a | a in s.arrivals && a.session == id :: WantedEnd(row, a) <= row.expectedEndAt)
      && (exists a :: a in s.arrivals && a.session == id && WantedEnd(row, a) == row.expectedEndAt)
  {
    RunKeepsInv(cfg, init, steps);
    var s := After(cfg, init, steps);
    var a :| Attains(s, id, a);
    assert a in s.arrivals && a.session == id && WantedEnd(s.tables.sessions[id], a) == s.tables.sessions[id].expectedEndAt;
  }

  /** No step shortens a session. */
  lemma ExpectedEndNeverDecreases(cfg: Config, s: System, step: Step, id: string)
    requires Enabled(s, step) && id in s.tables.sessions
    ensures id in Apply(cfg, s, step).tables.sessions
    ensures s.tables.sessions[id].expectedEndAt <= Apply(cfg, s, step).tables.sessions[id].expectedEndAt
  {}

  // --- The window the finalizer collects ---

  function WindowStart(snap: Session): int { snap.startedAt - snap.pre * SECOND }

  function WindowEnd(cfg: Config, snap: Session): int { snap.expectedEndAt + cfg.settle * SECOND }

  // --- Concrete runs that refute stronger claims ---

  ghost predicate Reachable(cfg: Config, init: System, s: System) {
    exists steps :: IsRun(cfg, init, steps) && After(cfg, init, steps) == s
  }

  lemma {:induction false} RunSnoc(cfg: Config, s: System, steps: seq<Step>, step: Step)
    requires IsRun(cfg, s, steps) && Enabled(After(cfg, s, steps), step)
    ensures IsRun(cfg, s, steps + [step])
    ensures After(cfg, s, steps + [step]) == Apply(cfg, After(cfg, s, steps), step)
    decreases |steps|
  {
    if steps == [] {
      assert ([] + [step])[1..] == [];
    } else {
      RunSnoc(cfg, Apply(cfg, s, steps[0]), steps[1..], step);
      assert (steps + [step])[1..] == steps[1..] + [step];
    }
  }

  lemma Reach(cfg: Config, init: System, s: System, step: Step) returns (next: System)
    requires Reachable(cfg, init, s) && Enabled(s, step)
    ensures Reachable(cfg, init, next) && next == Apply(cfg, s, step)
  {
    var steps :| IsRun(cfg, init, steps) && After(cfg, init, steps) == s;
    RunSnoc(cfg, init, steps, step);
    next := Apply(cfg, s, step);
  }

  const DEFAULTS := Config(8, 12, 180, 2)
  const FIRST := Alarm("cam", 0, 0, 3, 4, ["e1"])
  const LATER := Alarm("cam", 3 * SECOND, 3 * SECOND, 3, 60, ["e2"])

  const OPENED := OpenedRow(DEFAULTS, FIRST)

  // One event, one session opened for it, the finalizer about to mark it.
  lemma LoadedExample(init: System) returns (s: System)
    requires IsInit(init)
    ensures Reachable(DEFAULTS, init, s)
    ensures s.tables.sessions == map["s1" := OPENED] && s.tables.relations == {Relation("s1", "e1")}
    ensures s.tables.events == map["e1" := Event("s1", false, "", NO_FILES)]
    ensures s.fin == Loaded("s1", OPENED)
  {
    assert IsRun(DEFAULTS, init, []) && After(DEFAULTS, init, []) == init;
    s := Reach(DEFAULTS, init, init, NewEvent("e1"));
    s := Reach(DEFAULTS, init, s, Attach(FIRST, None, "s1"));
    s := Reach(DEFAULTS, init, s, Load("s1"));
  }

  /** The claim that the window covers every attached alarm is false: here an alarm commits
      between the finalizer's load and its mark. */
  lemma StaleWindowExample(init: System) returns (s: System)
    requires IsInit(init)
    ensures Reachable(DEFAULTS, init, s)
    ensures s.fin.Listed? && "e2" in s.fin.events && "s1" in s.tables.sessions
    ensures var late := Arrival("s1", 3 * SECOND, 60);
      && late in s.arrivals
      && WindowEnd(DEFAULTS, s.fin.snap) < WantedEnd(s.tables.sessions["s1"], late)
  {
    s := LoadedExample(init);
    assert IsActive(s.tables, "cam", Some("s1"));
    s := Reach(DEFAULTS, init, s, Attach(LATER, Some("s1"), "s2"));
    assert s.tables.sessions["s1"] == ExtendedRow(DEFAULTS, LATER, OPENED);
    assert Relation("s1", "e2") in s.tables.relations;
    s := Reach(DEFAULTS, init, s, Mark(true));
    s := Reach(DEFAULTS, init, s, List(true));
    assert "e2" in EventsOf(s.tables, "s1");
  }

  /** Without the exception for discarded errors delivery is false: the collect-error branch
      fails the session although its event update failed, and the event is never made ready. */
  lemma SkippedUpdateExample(init: System) returns (s: System)
    requires IsInit(init)
    ensures Reachable(DEFAULTS, init, s)
    ensures "s1" in s.tables.sessions && s.tables.sessions["s1"].status.Failed?
    ensures "e1" in s.tables.events && s.tables.events["e1"].session == "s1" && !s.tables.events["e1"].ready
  {
    s := LoadedExample(init);
    s := Reach(DEFAULTS, init, s, Mark(true));
    s := Reach(DEFAULTS, init, s, List(true));
    s := Reach(DEFAULTS, init, s, Update(CollectError, false));
    s := Reach(DEFAULTS, init, s, Close(true));
  }

  /** Out of clock order the lower end is not covered: an alarm that read its clock before the
      session was opened joins it and starts before its first second. */
  lemma SlowAlarmExample(init: System) returns (s: System)
    requires IsInit(init)
    ensures Reachable(DEFAULTS, init, s)
    ensures Arrival("s1", 0, 4) in s.arrivals && "s1" in s.tables.sessions
    ensures 0 - s.tables.sessions["s1"].pre * SECOND < WindowStart(s.tables.sessions["s1"])
  {
    assert IsRun(DEFAULTS, init, []) && After(DEFAULTS, init, []) == init;
    s := Reach(DEFAULTS, init, init, Attach(LATER, None, "s1"));
    assert IsActive(s.tables, "cam", Some("s1"));
    s := Reach(DEFAULTS, init, s, Attach(FIRST, Some("s1"), "s2"));
  }
}
