/** The alarm-clip runtime as the server holds it: the tables, the per-source finalize timers,
    and the operations that change them. Startup recovery is sequential. */
module AlarmClipRuntime {
  import opened Wrappers
  import opened AlarmClipTables
  import opened AlarmClipProtocol

  // One whole finalize call whose database writes succeed.
  function Finalized(t: Tables, id: string, o: Outcome): Tables {
    if id !in t.sessions || Terminal(t.sessions[id].status) then t
    else
      var closing := if t.sessions[id].status.Closing? then t else MarkClosing(t, id);
      if o.Aborted? then closing
      else WriteSession(WriteEvents(closing, id, EventsOf(closing, id), OutcomePath(o), OutcomeFiles(o)),
                        id, OutcomeStatus(o), OutcomePath(o), OutcomeFiles(o))
  }

  // How a finalize leaves its session, and what the attached events show then.
  ghost predicate EndsAs(t: Tables, id: string, o: Outcome) {
    && id in t.sessions
    && var row := t.sessions[id];
    match o
    case Aborted => row.status == Closing
    case Copied(path, files) =>
      row.status == Closed && row.clipPath == path && row.clipFiles == files && ClipOf(t, id, path, files)
    case NoFiles => row.status == ClosedEmpty && row.clipPath == "" && row.clipFiles == "[]" && ClipOf(t, id, "", "[]")
    case SourceMissing => row.status == ClosedEmpty && row.clipPath == "" && row.clipFiles == "[]" && ClipOf(t, id, "", "[]")
    case CollectError => row.status == Failed && row.clipPath == "" && row.clipFiles == "[]" && ClipOf(t, id, "", "[]")
    case CopyError => row.status == Failed && row.clipPath == "" && row.clipFiles == "[]" && ClipOf(t, id, "", "[]")
  }

  // Every event attached to the session is ready and shows this clip as its own.
  ghost predicate ClipOf(t: Tables, id: string, path: string, files: string) {
    forall e | e in t.events && Relation(id, e) in t.relations :: t.events[e] == Event(id, true, path, files)
  }

  /** A finalize call is a run of the protocol: load, mark, list, update, close. */
  lemma FinalizedIsARun(cfg: Config, s: System, id: string, o: Outcome) returns (next: System)
    requires s.fin.Idle? && id in s.tables.sessions && !Terminal(s.tables.sessions[id].status)
    ensures Reachable(cfg, s, next)
    ensures next.tables == Finalized(s.tables, id, o) && next.fin.Idle? && next.arrivals == s.arrivals && next.clock == s.clock
  {
    assert IsRun(cfg, s, []) && After(cfg, s, []) == s;
    next := Reach(cfg, s, s, Load(id));
    next := Reach(cfg, s, next, Mark(true));
    next := Reach(cfg, s, next, List(true));
    next := Reach(cfg, s, next, Update(o, true));
    if !o.Aborted? {
      next := Reach(cfg, s, next, Close(true));
    }
  }

  datatype Timer = Timer(seqNo: nat, deadline: int)

  // --- Timer sequence numbers ---

  function SeqNoOf(timers: map<string, Timer>, source: string): nat {
    if source in timers then timers[source].seqNo else 0
  }

  function Rearmed(timers: map<string, Timer>, source: string, deadline: int): map<string, Timer> {
    timers[source := Timer(SeqNoOf(timers, source) + 1, deadline)]
  }

  // What happens to the timer of one source: it is armed, or its entry is deleted by a cancel or a fire.
  datatype TimerOp = Arm(deadline: int) | Drop

  function TimersAfter(ops: seq<TimerOp>, source: string): map<string, Timer> {
    if ops == [] then map[]
    else
      var rest, op := TimersAfter(ops[..|ops| - 1], source), ops[|ops| - 1];
      if op.Drop? then rest - {source} else Rearmed(rest, source, op.deadline)
  }

  function ArmsSinceDrop(ops: seq<TimerOp>): nat {
    if ops == [] || ops[|ops| - 1].Drop? then 0 else ArmsSinceDrop(ops[..|ops| - 1]) + 1
  }

  lemma {:induction false} SeqNoCountsArms(ops: seq<TimerOp>, source: string)
    ensures SeqNoOf(TimersAfter(ops, source), source) == ArmsSinceDrop(ops)
    ensures source in TimersAfter(ops, source) <==> ArmsSinceDrop(ops) > 0
  {
    if ops != [] { SeqNoCountsArms(ops[..|ops| - 1], source); }
  }

  lemma {:induction false} ArmsGrow(ops: seq<TimerOp>, i: nat)
    requires i < |ops| && forall j | i < j < |ops| :: ops[j].Arm?
    ensures ArmsSinceDrop(ops) == ArmsSinceDrop(ops[..i + 1]) + (|ops| - 1 - i)
    decreases |ops|
  {
    if i == |ops| - 1 {
      assert ops[..i + 1] == ops;
    } else {
      assert ops[..|ops| - 1][..i + 1] == ops[..i + 1];
      ArmsGrow(ops[..|ops| - 1], i);
    }
  }

  /** A callback carries the number its arming gave it. It is taken for the current one exactly when
      as many armings precede the present as preceded its own since the last deletion; without a
      deletion since, that means when the timer was not armed again. */
  lemma CallbackIsCurrentIff(ops: seq<TimerOp>, i: nat, source: string)
    requires i < |ops| && ops[i].Arm?
    ensures var own, now := TimersAfter(ops[..i + 1], source), TimersAfter(ops, source);
      && (source in now && now[source].seqNo == SeqNoOf(own, source) <==> ArmsSinceDrop(ops) == ArmsSinceDrop(ops[..i + 1]))
      && ((forall j | i < j < |ops| :: ops[j].Arm?) ==>
            (source in now && now[source].seqNo == SeqNoOf(own, source) <==> i == |ops| - 1))
  {
    SeqNoCountsArms(ops, source);
    SeqNoCountsArms(ops[..i + 1], source);
    if forall j | i < j < |ops| :: ops[j].Arm? { ArmsGrow(ops, i); }
  }

  /** Numbers restart after a deletion: the first timer's callback passes for the second one's. */
  lemma RestartedNumberExample(source: string)
    ensures var ops := [Arm(1), Drop, Arm(2)];
      source in TimersAfter(ops, source) && TimersAfter(ops, source)[source].seqNo == SeqNoOf(TimersAfter(ops[..1], source), source)
  {}

  class Runtime {
    var sessions: map<string, Session>
    var relations: set<Relation>
    var events: map<string, Event>
    var timers: map<string, Timer>

    function Db(): Tables
      reads this
    {
      Tables(sessions, relations, events)
    }

    constructor ()
      ensures Db() == Tables(map[], {}, map[]) && timers == map[]
    {
      sessions, relations, events, timers := map[], {}, map[], map[];
    }

    method FindActive(source: string) returns (found: Option<string>)
      ensures IsActive(Db(), source, found)
    {
      var rows := set id | id in sessions && IsRecordingOf(Db(), source, id);
      if rows == {} {
        assert forall id :: IsRecordingOf(Db(), source, id) ==> id in rows;
        return None;
      }
      var best :| best in rows;
      var rest := rows - {best};
      while rest != {}
        invariant best in rows && rest <= rows
        invariant forall id | id in rows - rest :: sessions[id].startedAt <= sessions[best].startedAt
      {
        var id :| id in rest;
        if sessions[best].startedAt < sessions[id].startedAt { best := id; }
        rest := rest - {id};
      }
      assert forall id :: IsRecordingOf(Db(), source, id) ==> id in rows;
      found := Some(best);
    }

    /** The start-or-extend call: a source that is not running and online changes nothing. */
    method Start(cfg: Config, alarm: Alarm, sourceReady: bool, freshId: string) returns (joined: Option<string>)
      requires alarm.events != [] && freshId !in sessions
      modifies `sessions, `relations, `events
      ensures !sourceReady ==> joined.None? && Db() == old(Db())
      ensures sourceReady ==> exists found ::
        && IsActive(old(Db()), alarm.source, found)
        && Db() == StartOrExtend(old(Db()), cfg, alarm, found, freshId)
        && joined == Some(Target(old(Db()), alarm, found, freshId))
      ensures joined.Some? ==> forall e | e in alarm.events ::
        && Relation(joined.value, e) in relations && (e in old(events) ==> e in events && events[e] == Event(joined.value, false, "", "[]"))
    {
      if !sourceReady { return None; }
      ghost var before := Db();
      var found := FindActive(alarm.source);
      var id := Target(Db(), alarm, found, freshId);
      if found == Some(id) {
        sessions := sessions[id := ExtendedRow(cfg, alarm, sessions[id])];
      } else {
        sessions := sessions[id := OpenedRow(cfg, alarm)];
      }
      ghost var written := sessions;
      for i := 0 to |alarm.events|
        invariant sessions == written && events == before.events
        invariant relations == before.relations + set e | e in alarm.events[..i] :: Relation(id, e)
      {
        relations := relations + {Relation(id, alarm.events[i])};
        assert alarm.events[..i + 1] == alarm.events[..i] + [alarm.events[i]];
      }
      assert alarm.events[..|alarm.events|] == alarm.events;
      events := SetClips(events, Ids(alarm.events), Event(id, false, "", NO_FILES));
      joined := Some(id);
      assert Db() == StartOrExtend(before, cfg, alarm, found, freshId);
    }

    method Schedule(cfg: Config, source: string, expectedEnd: int)
      modifies `timers
      ensures timers == Rearmed(old(timers), source, expectedEnd + cfg.settle * SECOND)
    {
      var last := if source in timers then timers[source].seqNo else 0;
      timers := timers[source := Timer(last + 1, expectedEnd + cfg.settle * SECOND)];
    }

    // The alarm handler: start or extend, then set the source's timer to the joined session's end.
    method Trigger(cfg: Config, alarm: Alarm, sourceReady: bool, freshId: string)
      requires alarm.events != [] && freshId !in sessions
      modifies `sessions, `relations, `events, `timers
      ensures !sourceReady ==> Db() == old(Db()) && timers == old(timers)
      ensures sourceReady ==> exists found ::
        && IsActive(old(Db()), alarm.source, found)
        && Db() == StartOrExtend(old(Db()), cfg, alarm, found, freshId)
        && var id := Target(old(Db()), alarm, found, freshId);
        timers == Rearmed(old(timers), alarm.source, sessions[id].expectedEndAt + cfg.settle * SECOND)
    {
      var joined := Start(cfg, alarm, sourceReady, freshId);
      if joined.Some? {
        ghost var found :| IsActive(old(Db()), alarm.source, found) && Db() == StartOrExtend(old(Db()), cfg, alarm, found, freshId)
          && joined == Some(Target(old(Db()), alarm, found, freshId));
        assert joined.value in Db().sessions;
        Schedule(cfg, alarm.source, sessions[joined.value].expectedEndAt);
        assert Db() == StartOrExtend(old(Db()), cfg, alarm, found, freshId);
      }
    }

    // Closing a source whose task stopped or that went offline.
    method CloseActive(source: string, o: Outcome)
      modifies `sessions, `events, `timers
      ensures timers == old(timers) - {source}
      ensures exists found ::
        && IsActive(old(Db()), source, found)
        && Db() == if found.None? then old(Db()) else Finalized(old(Db()), found.value, o)
    {
      Cancel(source);
      var found := FindActive(source);
      assert IsActive(old(Db()), source, found);
      if found.Some? { Finalize(found.value, o); }
    }

    method Cancel(source: string)
      modifies `timers
      ensures timers == old(timers) - {source}
    {
      timers := timers - {source};
    }

    method Finalize(id: string, o: Outcome)
      modifies `sessions, `events, `timers
      ensures Db() == Finalized(old(Db()), id, o)
      ensures id in old(sessions) && !Terminal(old(sessions)[id].status) ==> EndsAs(Db(), id, o)
      ensures timers == if id in old(sessions) && !Terminal(old(sessions)[id].status)
                        then old(timers) - {old(sessions)[id].source} else old(timers)
    {
      if id !in sessions { return; }
      var session := sessions[id];
      if !session.status.Recording? && !session.status.Closing? { return; }
      if session.status.Recording? {
        sessions := sessions[id := session.(status := Closing)];
      }
      Cancel(session.source);
      var attached := EventsOf(Db(), id);
      if o.Aborted? { return; }
      events := SetClips(events, attached, Event(id, true, OutcomePath(o), OutcomeFiles(o)));
      sessions := sessions[id := sessions[id].(
        status := OutcomeStatus(o), clipPath := OutcomePath(o), clipFiles := OutcomeFiles(o))];
    }

    /** A callback whose sequence number is not the source's current one does nothing; the current
        one clears the timer and finalizes the active recording session, if there is one. */
    method HandleDeadline(source: string, seqNo: nat, o: Outcome)
      modifies `sessions, `events, `timers
      ensures var stale := source !in old(timers) || old(timers)[source].seqNo != seqNo;
        if stale then Db() == old(Db()) && timers == old(timers)
        else
          && timers == old(timers) - {source}
          && exists found ::
            && IsActive(old(Db()), source, found)
            && Db() == if found.None? then old(Db()) else Finalized(old(Db()), found.value, o)
    {
      if source !in timers || timers[source].seqNo != seqNo { return; }
      timers := timers - {source};
      var found := FindActive(source);
      assert IsActive(old(Db()), source, found);
      if found.Some? {
        Finalize(found.value, o);
        assert timers == old(timers) - {source};
      }
    }

    /** Startup recovery over the rows its query returned. Every session that is not terminal is kept
        as it is or finalized; the timers left armed are exactly those `Armed` names. */
    method Recover(cfg: Config, rows: seq<string>, now: int, eligible: set<string>, outcomes: string -> Outcome)
      requires LinksOk(Db()) && IsRecoveryQuery(Db(), rows) && timers == map[]
      modifies `sessions, `events, `timers
      ensures LinksOk(Db()) && sessions.Keys == old(sessions).Keys
      ensures forall id | id in old(sessions) && Terminal(old(sessions)[id].status) :: sessions[id] == old(sessions)[id]
      ensures forall i | 0 <= i < |rows| :: Settled(cfg, old(Db()), Db(), rows, i, now, eligible, outcomes(rows[i]))
      ensures forall source :: source in timers <==> Armed(cfg, old(Db()), rows, |rows|, now, eligible, source)
      ensures DeadlinesSet(cfg, old(Db()), timers, rows, |rows|, now, eligible)
    {
      ghost var before := Db();
      var seen: set<string> := {};
      for i := 0 to |rows|
        invariant RowsDone(cfg, before, Db(), rows, i, now, eligible, outcomes)
        invariant TimersDone(cfg, before, timers.Keys, seen, rows, i, now, eligible)
        invariant DeadlinesSet(cfg, before, timers, rows, i, now, eligible)
      {
        assert rows[i] in rows[i..];
        KeepMeansSurvives(cfg, before, timers.Keys, seen, rows, i, now, eligible);
        RowsStep(cfg, before, Db(), rows, i, now, eligible, outcomes);
        TimersStep(cfg, before, timers.Keys, seen, rows, i, now, eligible);
        DeadlinesStep(cfg, before, timers, rows, i, now, eligible);
        seen := RecoverRow(cfg, rows[i], now, eligible, seen, outcomes(rows[i]));
      }
    }

    // One iteration: keep the row and arm its timer, or finalize it.
    method RecoverRow(cfg: Config, id: string, now: int, eligible: set<string>, seen: set<string>, o: Outcome)
      returns (seen': set<string>)
      requires id in sessions && !Terminal(sessions[id].status)
      modifies `sessions, `events, `timers
      ensures seen' == SeenAfter(old(sessions)[id], seen)
      ensures if Keep(cfg, old(sessions)[id], now, eligible, seen)
              then Db() == old(Db()) && timers == Rearmed(old(timers), old(sessions)[id].source, TimerEnd(cfg, old(sessions)[id]))
              else Db() == Finalized(old(Db()), id, o) && timers == old(timers) - {old(sessions)[id].source}
    {
      var session := sessions[id];
      seen' := seen;
      if session.status.Closing? {
        Finalize(id, o);
        return;
      }
      if session.source in seen {
        Finalize(id, o);
        return;
      }
      seen' := seen + {session.source};
      if session.source !in eligible {
        Finalize(id, o);
        return;
      }
      if session.expectedEndAt + cfg.settle * SECOND <= now {
        Finalize(id, o);
        return;
      }
      Schedule(cfg, session.source, session.expectedEndAt);
    }
  }

  predicate Keep(cfg: Config, row: Session, now: int, eligible: set<string>, seen: set<string>) {
    row.status.Recording? && row.source !in seen && row.source in eligible && now < row.expectedEndAt + cfg.settle * SECOND
  }

  function SeenAfter(row: Session, seen: set<string>): set<string> {
    if row.status.Recording? then seen + {row.source} else seen
  }

  // --- What recovery promises ---

  // Sessions that are not terminal, once each, those of one source by descending expected end.
  ghost predicate IsRecoveryQuery(t: Tables, rows: seq<string>) {
    && (forall i | 0 <= i < |rows| :: rows[i] in t.sessions && !Terminal(t.sessions[rows[i]].status))
    && (forall i, j | 0 <= i < j < |rows| :: rows[i] != rows[j])
    && (forall id | id in t.sessions && !Terminal(t.sessions[id].status) :: id in rows)
    && (forall i, j | 0 <= i < j < |rows| && t.sessions[rows[i]].source == t.sessions[rows[j]].source ::
          t.sessions[rows[j]].expectedEndAt <= t.sessions[rows[i]].expectedEndAt)
  }

  // The row is kept: the first recording row of an eligible source, and not yet expired.
  ghost predicate Survives(cfg: Config, t: Tables, rows: seq<string>, i: int, now: int, eligible: set<string>)
    requires 0 <= i < |rows| && forall k | 0 <= k <= i :: rows[k] in t.sessions
  {
    var row := t.sessions[rows[i]];
    && row.status.Recording?
    && (forall k | 0 <= k < i && t.sessions[rows[k]].status.Recording? :: t.sessions[rows[k]].source != row.source)
    && row.source in eligible
    && now < row.expectedEndAt + cfg.settle * SECOND
  }

  ghost predicate Settled(cfg: Config, before: Tables, t: Tables, rows: seq<string>, i: int, now: int,
                          eligible: set<string>, o: Outcome)
    requires 0 <= i < |rows| && forall k | 0 <= k <= i :: rows[k] in before.sessions
  {
    && rows[i] in t.sessions
    && var was, row := before.sessions[rows[i]], t.sessions[rows[i]];
    if Survives(cfg, before, rows, i, now, eligible) then row == was
    else if o.Aborted? then row == was.(status := Closing)
    else
      && row == was.(status := OutcomeStatus(o), clipPath := OutcomePath(o), clipFiles := OutcomeFiles(o))
      && Delivered(t, rows[i], row.clipPath, row.clipFiles)
  }

  // After the first `n` rows the timer of `source` is armed: a row of it was kept and none came later.
  ghost predicate Armed(cfg: Config, t: Tables, rows: seq<string>, n: int, now: int, eligible: set<string>, source: string)
    requires 0 <= n <= |rows| && forall k | 0 <= k < n :: rows[k] in t.sessions
  {
    exists k :: 0 <= k < n && t.sessions[rows[k]].source == source && Survives(cfg, t, rows, k, now, eligible)
      && forall j | k < j < n :: t.sessions[rows[j]].source != source
  }

  // When the timer of a session is due.
  function TimerEnd(cfg: Config, row: Session): int { row.expectedEndAt + cfg.settle * 1_000_000_000 }

  // Every timer armed in the first `n` rows is set to the end of the row it was armed for.
  ghost predicate DeadlinesSet(cfg: Config, t: Tables, timers: map<string, Timer>, rows: seq<string>, n: int, now: int, eligible: set<string>)
    requires 0 <= n <= |rows| && forall k | 0 <= k < n :: rows[k] in t.sessions
  {
    forall k | 0 <= k < n && Survives(cfg, t, rows, k, now, eligible) && NoneAfter(t, rows, k, n) ::
      var row := t.sessions[rows[k]]; row.source in timers && timers[row.source].deadline == TimerEnd(cfg, row)
  }

  predicate NoneAfter(t: Tables, rows: seq<string>, k: int, n: int)
    requires 0 <= k < n <= |rows| && forall j | 0 <= j < n :: rows[j] in t.sessions
  {
    forall j | k < j < n :: t.sessions[rows[j]].source != t.sessions[rows[k]].source
  }

  lemma DeadlinesStep(cfg: Config, t: Tables, timers: map<string, Timer>, rows: seq<string>, n: int, now: int, eligible: set<string>)
    requires 0 <= n < |rows| && (forall k | 0 <= k <= n :: rows[k] in t.sessions)
    requires DeadlinesSet(cfg, t, timers, rows, n, now, eligible)
    ensures var row := t.sessions[rows[n]];
      var after := if Survives(cfg, t, rows, n, now, eligible) then Rearmed(timers, row.source, TimerEnd(cfg, row)) else timers - {row.source};
      DeadlinesSet(cfg, t, after, rows, n + 1, now, eligible)
  {
    hide Survives;
    forall k | 0 <= k < n && NoneAfter(t, rows, k, n + 1)
      ensures NoneAfter(t, rows, k, n) && t.sessions[rows[n]].source != t.sessions[rows[k]].source
    {}
  }

  // What holds of the tables after the first `i` rows.
  ghost predicate RowsDone(cfg: Config, before: Tables, t: Tables, rows: seq<string>, i: int, now: int,
                           eligible: set<string>, outcomes: string -> Outcome)
    requires IsRecoveryQuery(before, rows) && 0 <= i <= |rows|
  {
    && LinksOk(t) && t.sessions.Keys == before.sessions.Keys
    && (forall id | id in before.sessions && (Terminal(before.sessions[id].status) || id in rows[i..]) ::
          t.sessions[id] == before.sessions[id])
    && (forall k | 0 <= k < i :: Settled(cfg, before, t, rows, k, now, eligible, outcomes(rows[k])))
  }

  // What holds of the timers and the sources seen after the first `i` rows.
  ghost predicate TimersDone(cfg: Config, before: Tables, armed: set<string>, seen: set<string>, rows: seq<string>,
                             i: int, now: int, eligible: set<string>)
    requires IsRecoveryQuery(before, rows) && 0 <= i <= |rows|
  {
    && seen == (set k | 0 <= k < i && before.sessions[rows[k]].status.Recording? :: before.sessions[rows[k]].source)
    && (forall source :: source in armed <==> Armed(cfg, before, rows, i, now, eligible, source))
  }

  lemma KeepMeansSurvives(cfg: Config, before: Tables, armed: set<string>, seen: set<string>, rows: seq<string>,
                          i: int, now: int, eligible: set<string>)
    requires IsRecoveryQuery(before, rows) && 0 <= i < |rows|
    requires TimersDone(cfg, before, armed, seen, rows, i, now, eligible)
    ensures Keep(cfg, before.sessions[rows[i]], now, eligible, seen) <==> Survives(cfg, before, rows, i, now, eligible)
  {}

  lemma TimersStep(cfg: Config, before: Tables, armed: set<string>, seen: set<string>, rows: seq<string>,
                   i: int, now: int, eligible: set<string>)
    requires IsRecoveryQuery(before, rows) && 0 <= i < |rows|
    requires TimersDone(cfg, before, armed, seen, rows, i, now, eligible)
    ensures var row := before.sessions[rows[i]];
      var armed' := if Survives(cfg, before, rows, i, now, eligible) then armed + {row.source} else armed - {row.source};
      TimersDone(cfg, before, armed', SeenAfter(row, seen), rows, i + 1, now, eligible)
  {
    forall source { ArmedStep(cfg, before, rows, i, now, eligible, source); }
  }

  lemma RowsStep(cfg: Config, before: Tables, t: Tables, rows: seq<string>, i: int, now: int,
                 eligible: set<string>, outcomes: string -> Outcome)
    requires IsRecoveryQuery(before, rows) && 0 <= i < |rows|
    requires RowsDone(cfg, before, t, rows, i, now, eligible, outcomes)
    ensures var t' := if Survives(cfg, before, rows, i, now, eligible) then t else Finalized(t, rows[i], outcomes(rows[i]));
      RowsDone(cfg, before, t', rows, i + 1, now, eligible, outcomes)
  {
    hide Finalized, LinksOk, Delivered;
    var id, o := rows[i], outcomes(rows[i]);
    assert id in rows[i..] && forall k | k in rows[i + 1..] :: k in rows[i..] && k != id;
    if !Survives(cfg, before, rows, i, now, eligible) {
      FinalizedSettles(t, id, o);
      forall k | k in t.sessions && k != id { FinalizedKeepsOthers(t, id, o, k); }
    }
  }

  lemma ArmedStep(cfg: Config, t: Tables, rows: seq<string>, n: int, now: int, eligible: set<string>, source: string)
    requires 0 <= n < |rows| && forall k | 0 <= k <= n :: rows[k] in t.sessions
    ensures Armed(cfg, t, rows, n + 1, now, eligible, source) <==>
      if t.sessions[rows[n]].source == source then Survives(cfg, t, rows, n, now, eligible)
      else Armed(cfg, t, rows, n, now, eligible, source)
  {}

  lemma FinalizedSettles(t: Tables, id: string, o: Outcome)
    requires LinksOk(t) && id in t.sessions && !Terminal(t.sessions[id].status)
    ensures var t' := Finalized(t, id, o);
      && LinksOk(t') && t'.sessions.Keys == t.sessions.Keys
      && (if o.Aborted? then t'.sessions[id] == t.sessions[id].(status := Closing)
          else
            && t'.sessions[id] == t.sessions[id].(status := OutcomeStatus(o), clipPath := OutcomePath(o), clipFiles := OutcomeFiles(o))
            && Delivered(t', id, OutcomePath(o), OutcomeFiles(o)))
  {}

  lemma FinalizedKeepsOthers(t: Tables, id: string, o: Outcome, other: string)
    requires id in t.sessions && !Terminal(t.sessions[id].status) && other in t.sessions && other != id
    ensures var t' := Finalized(t, id, o);
      && other in t'.sessions && t'.sessions[other] == t.sessions[other]
      && forall path, files :: Delivered(t, other, path, files) ==> Delivered(t', other, path, files)
  {}

  /** When every finalize succeeds, recovery leaves no session closing and at most one recording
      session per source: its first recording row, which has the latest expected end of them,
      provided the source is eligible and the row has not expired. */
  lemma RecoveryLeavesOneSession(cfg: Config, before: Tables, t: Tables, rows: seq<string>, now: int,
                                 eligible: set<string>, outcomes: string -> Outcome, id: string)
    requires IsRecoveryQuery(before, rows) && t.sessions.Keys == before.sessions.Keys && id in t.sessions
    requires forall k | k in before.sessions && Terminal(before.sessions[k].status) :: t.sessions[k] == before.sessions[k]
    requires forall i | 0 <= i < |rows| :: Settled(cfg, before, t, rows, i, now, eligible, outcomes(rows[i]))
    requires forall i | 0 <= i < |rows| :: !outcomes(rows[i]).Aborted?
    ensures !t.sessions[id].status.Closing?
    ensures t.sessions[id].status.Recording? ==>
      && t.sessions[id] == before.sessions[id]
      && t.sessions[id].source in eligible && now < t.sessions[id].expectedEndAt + cfg.settle * SECOND
      && forall other | IsRecordingOf(before, t.sessions[id].source, other) ::
           && before.sessions[other].expectedEndAt <= t.sessions[id].expectedEndAt
           && (t.sessions[other].status.Recording? ==> other == id)
  {}

  /** A kept session still has its timer after recovery if and only if no later row belongs to its
      source: finalizing such a row cancels the timer by source. */
  lemma KeptTimerIff(cfg: Config, t: Tables, rows: seq<string>, i: int, now: int, eligible: set<string>)
    requires IsRecoveryQuery(t, rows) && 0 <= i < |rows| && Survives(cfg, t, rows, i, now, eligible)
    ensures Armed(cfg, t, rows, |rows|, now, eligible, t.sessions[rows[i]].source) <==>
      forall j | i < j < |rows| :: t.sessions[rows[j]].source != t.sessions[rows[i]].source
  {}

  // The server crashes after marking a session closing, and the next alarm opens another one.
  lemma CrashedExample(init: System) returns (s: System)
    requires IsInit(init)
    ensures Reachable(DEFAULTS, init, s)
    ensures s.tables.sessions == map["s1" := OPENED.(status := Closing), "s2" := OpenedRow(DEFAULTS, LATER)]
  {
    hide Reachable, IsInit, PostSeconds, PreSeconds;
    s := LoadedExample(init);
    s := Reach(DEFAULTS, init, s, Mark(true));
    assert s.tables.sessions == map["s1" := OPENED.(status := Closing)];
    s := Reach(DEFAULTS, init, s, Crash);
    assert s.tables.sessions == map["s1" := OPENED.(status := Closing)];
    s := AttachSecond(init, s);
  }

  lemma AttachSecond(init: System, s: System) returns (next: System)
    requires Reachable(DEFAULTS, init, s) && s.tables.sessions == map["s1" := OPENED.(status := Closing)]
    ensures Reachable(DEFAULTS, init, next)
    ensures next.tables.sessions == map["s1" := OPENED.(status := Closing), "s2" := OpenedRow(DEFAULTS, LATER)]
  {
    hide Reachable, PostSeconds, PreSeconds;
    assert IsActive(s.tables, "cam", None);
    next := Reach(DEFAULTS, init, s, Attach(LATER, None, "s2"));
  }

  /** The kept session can lose its timer: recovery after that run keeps the new session, and then
      finalizes the old one of the same source. */
  lemma LostTimerExample(init: System) returns (s: System, rows: seq<string>)
    requires IsInit(init)
    ensures Reachable(DEFAULTS, init, s) && IsRecoveryQuery(s.tables, rows) && |rows| == 2
    ensures Survives(DEFAULTS, s.tables, rows, 0, 4 * SECOND, {"cam"})
    ensures !Armed(DEFAULTS, s.tables, rows, 2, 4 * SECOND, {"cam"}, "cam")
  {
    hide Reachable;
    s := CrashedExample(init);
    rows := ["s2", "s1"];
    assert rows[0] == "s2" && rows[1] == "s1";
    KeptTimerIff(DEFAULTS, s.tables, rows, 0, 4 * SECOND, {"cam"});
  }
}
