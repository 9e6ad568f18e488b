/** What the time fields of alarm-clip sessions promise over runs: one unexpired session per source,
    when an alarm's interval lies inside its session, and when the finalizer's window covers it. */
module AlarmClipWindows {
  import opened Wrappers
  import opened AlarmClipTables
  import opened AlarmClipProtocol

  // --- Runs with all their states ---

  ghost predicate IsTrace(cfg: Config, states: seq<System>, steps: seq<Step>) {
    && |states| == |steps| + 1
    && forall i | 0 <= i < |steps| :: Enabled(states[i], steps[i]) && states[i + 1] == Apply(cfg, states[i], steps[i])
  }

  ghost predicate FullTrace(cfg: Config, states: seq<System>, steps: seq<Step>) {
    ValidConfig(cfg) && IsTrace(cfg, states, steps) && IsInit(states[0])
  }

  lemma {:induction false} RunHasTrace(cfg: Config, s: System, steps: seq<Step>) returns (states: seq<System>)
    requires IsRun(cfg, s, steps)
    ensures IsTrace(cfg, states, steps) && states[0] == s && states[|steps|] == After(cfg, s, steps)
    decreases |steps|
  {
    if steps == [] {
      states := [s];
    } else {
      var rest := RunHasTrace(cfg, Apply(cfg, s, steps[0]), steps[1..]);
      states := [s] + rest;
      forall i | 0 < i < |steps| ensures Enabled(states[i], steps[i]) && states[i + 1] == Apply(cfg, states[i], steps[i]) {
        assert steps[i] == steps[1..][i - 1] && Enabled(rest[i - 1], steps[1..][i - 1]);
      }
    }
  }

  lemma {:induction false} TraceKeepsInv(cfg: Config, states: seq<System>, steps: seq<Step>, n: nat)
    requires FullTrace(cfg, states, steps) && n <= |steps|
    ensures Inv(cfg, states[n])
  {
    if n > 0 {
      TraceKeepsInv(cfg, states, steps, n - 1);
      assert Enabled(states[n - 1], steps[n - 1]);
      InvStep(cfg, states[n - 1], steps[n - 1]);
    }
  }

  // The session the alarm of an Attach step ends up in, and the end it asks for.
  function Joined(s: System, step: Step): string
    requires step.Attach? && (step.found.Some? ==> step.found.value in s.tables.sessions)
  {
    Target(s.tables, step.alarm, step.found, step.freshId)
  }

  ghost predicate Joins(s: System, step: Step, id: string) {
    step.Attach? && Enabled(s, step) && Joined(s, step) == id
  }

  function AskedEnd(cfg: Config, alarm: Alarm, row: Session): int {
    Min(alarm.now + PostSeconds(cfg, alarm) * SECOND, row.hardDeadlineAt)
  }

  // --- At most one unexpired recording session per source ---

  ghost predicate AtMostOneUnexpired(t: Tables, clock: int) {
    forall a, b, source | IsRecordingOf(t, source, a) && IsRecordingOf(t, source, b) && a != b ::
      t.sessions[a].hardDeadlineAt <= clock || t.sessions[b].hardDeadlineAt <= clock
  }

  // Recording rows after a step were there before, unchanged in source and deadline, or are new.
  lemma UnexpiredStep(cfg: Config, s: System, step: Step)
    requires ValidConfig(cfg) && TimesOk(cfg, s.tables) && AtMostOneUnexpired(s.tables, s.clock) && Enabled(s, step)
    ensures var s' := Apply(cfg, s, step); AtMostOneUnexpired(s'.tables, s'.clock)
  {
    var s' := Apply(cfg, s, step);
    forall a, b, source | IsRecordingOf(s'.tables, source, a) && IsRecordingOf(s'.tables, source, b) && a != b
      ensures s'.tables.sessions[a].hardDeadlineAt <= s'.clock || s'.tables.sessions[b].hardDeadlineAt <= s'.clock
    {
      if a in s.tables.sessions && b in s.tables.sessions {
        assert IsRecordingOf(s.tables, source, a) && IsRecordingOf(s.tables, source, b);
      } else {
        var known := if a in s.tables.sessions then a else b;
        assert IsRecordingOf(s.tables, source, known);
      }
    }
  }

  lemma {:induction false} UnexpiredOnTraces(cfg: Config, states: seq<System>, steps: seq<Step>, n: nat)
    requires FullTrace(cfg, states, steps) && n <= |steps|
    ensures AtMostOneUnexpired(states[n].tables, states[n].clock)
  {
    if n > 0 {
      UnexpiredOnTraces(cfg, states, steps, n - 1);
      TraceKeepsInv(cfg, states, steps, n - 1);
      assert Enabled(states[n - 1], steps[n - 1]);
      UnexpiredStep(cfg, states[n - 1], steps[n - 1]);
    }
  }

  /** In every run, whatever order alarms commit in, two recording sessions of a source never both
      have a hard deadline later than the latest clock reading of an alarm. */
  lemma OneUnexpiredSession(cfg: Config, init: System, steps: seq<Step>, source: string, a: string, b: string)
    requires ValidConfig(cfg) && IsInit(init) && IsRun(cfg, init, steps) && a != b
    requires IsRecordingOf(After(cfg, init, steps).tables, source, a) && IsRecordingOf(After(cfg, init, steps).tables, source, b)
    ensures var s := After(cfg, init, steps);
      s.tables.sessions[a].hardDeadlineAt <= s.clock || s.tables.sessions[b].hardDeadlineAt <= s.clock
  {
    var states := RunHasTrace(cfg, init, steps);
    UnexpiredOnTraces(cfg, states, steps, |steps|);
  }

  // --- When an alarm's interval lies inside its session ---

  // The step that opened session `id`.
  ghost predicate OpensAt(states: seq<System>, steps: seq<Step>, k: nat, id: string)
    requires |states| == |steps| + 1
  {
    k < |steps| && Joins(states[k], steps[k], id) && id !in states[k].tables.sessions
  }

  lemma {:induction false} OpeningStep(cfg: Config, states: seq<System>, steps: seq<Step>, n: nat, id: string) returns (k: nat)
    requires FullTrace(cfg, states, steps) && n <= |steps| && id in states[n].tables.sessions
    ensures k < n && OpensAt(states, steps, k, id) && states[n].tables.sessions[id].startedAt == steps[k].alarm.now
  {
    TraceKeepsInv(cfg, states, steps, n - 1);
    assert Enabled(states[n - 1], steps[n - 1]) && states[n] == Apply(cfg, states[n - 1], steps[n - 1]);
    if id in states[n - 1].tables.sessions {
      k := OpeningStep(cfg, states, steps, n - 1, id);
      StartKept(cfg, states[n - 1], steps[n - 1], id);
    } else {
      k := n - 1;
    }
  }

  lemma StartKept(cfg: Config, s: System, step: Step, id: string)
    requires Enabled(s, step) && id in s.tables.sessions
    ensures var t := Apply(cfg, s, step).tables;
      && id in t.sessions && t.sessions[id].startedAt == s.tables.sessions[id].startedAt
      && t.sessions[id].pre == s.tables.sessions[id].pre && t.sessions[id].hardDeadlineAt == s.tables.sessions[id].hardDeadlineAt
  {}

  /** On every run an alarm's interval, from the session's pre-roll before its clock reading to the
      end it asks for, lies inside its session if and only if its reading is not older than that of
      the alarm that opened the session. The upper end is always inside. */
  lemma IntervalInsideIff(cfg: Config, states: seq<System>, steps: seq<Step>, a: Arrival) returns (k: nat)
    requires FullTrace(cfg, states, steps) && a in states[|steps|].arrivals
    ensures a.session in states[|steps|].tables.sessions && OpensAt(states, steps, k, a.session)
    ensures var row := states[|steps|].tables.sessions[a.session];
      && WantedEnd(row, a) <= row.expectedEndAt
      && (WindowStart(row) <= a.at - row.pre * SECOND <==> steps[k].alarm.now <= a.at)
  {
    TraceKeepsInv(cfg, states, steps, |steps|);
    k := OpeningStep(cfg, states, steps, |steps|, a.session);
  }

  // Every alarm commits with a clock reading no older than any committed before it.
  ghost predicate InClockOrder(states: seq<System>, steps: seq<Step>) {
    |states| == |steps| + 1 && forall i | 0 <= i < |steps| && steps[i].Attach? :: states[i].clock <= steps[i].alarm.now
  }

  lemma {:induction false} StartedByReading(cfg: Config, states: seq<System>, steps: seq<Step>, n: nat)
    requires FullTrace(cfg, states, steps) && InClockOrder(states, steps) && n <= |steps|
    ensures forall id | id in states[n].tables.sessions :: states[n].tables.sessions[id].startedAt <= states[n].clock
    ensures forall a | a in states[n].arrivals ::
      a.session in states[n].tables.sessions && states[n].tables.sessions[a.session].startedAt <= a.at
  {
    if n > 0 {
      StartedByReading(cfg, states, steps, n - 1);
      assert Enabled(states[n - 1], steps[n - 1]) && states[n] == Apply(cfg, states[n - 1], steps[n - 1]);
      forall id | id in states[n - 1].tables.sessions
        ensures id in states[n].tables.sessions && states[n].tables.sessions[id].startedAt == states[n - 1].tables.sessions[id].startedAt
      {
        StartKept(cfg, states[n - 1], steps[n - 1], id);
      }
    }
  }

  /** When alarms commit in the order of their readings, every alarm's interval lies inside its session. */
  lemma ClockOrderCovers(cfg: Config, states: seq<System>, steps: seq<Step>, a: Arrival)
    requires FullTrace(cfg, states, steps) && InClockOrder(states, steps) && a in states[|steps|].arrivals
    ensures a.session in states[|steps|].tables.sessions
    ensures var row := states[|steps|].tables.sessions[a.session];
      WindowStart(row) <= a.at - row.pre * SECOND && WantedEnd(row, a) <= row.expectedEndAt
  {
    TraceKeepsInv(cfg, states, steps, |steps|);
    StartedByReading(cfg, states, steps, |steps|);
  }

  // --- When the finalizer's window covers the attached alarms ---

  // The finalizer has loaded this row of this session and not given up since.
  predicate Busy(f: Finalizer, id: string, snap: Session) {
    !f.Idle? && f.id == id && f.snap == snap
  }

  // The finalizer that works at the end loaded its row in step `load`.
  ghost predicate LoadedAt(states: seq<System>, steps: seq<Step>, load: nat)
    requires |states| == |steps| + 1
  {
    && load < |steps| && !states[|steps|].fin.Idle? && steps[load] == Load(states[|steps|].fin.id)
    && (forall i | load < i < |steps| :: !steps[i].Load?)
    && (forall i | load < i <= |steps| :: Busy(states[i].fin, states[|steps|].fin.id, states[|steps|].fin.snap))
  }

  lemma {:induction false} LoadOf(cfg: Config, states: seq<System>, steps: seq<Step>) returns (load: nat)
    requires FullTrace(cfg, states, steps) && !states[|steps|].fin.Idle?
    ensures LoadedAt(states, steps, load)
    decreases |steps|
  {
    var n := |steps| - 1;
    assert Enabled(states[n], steps[n]) && states[n + 1] == Apply(cfg, states[n], steps[n]);
    if steps[n].Load? {
      load := n;
    } else {
      load := LoadOf(cfg, states[..n + 1], steps[..n]);
      forall i | load < i <= n ensures Busy(states[i].fin, states[n].fin.id, states[n].fin.snap) {
        assert Busy(states[..n + 1][i].fin, states[n].fin.id, states[n].fin.snap);
      }
      forall i | load < i < n ensures !steps[i].Load? { assert !steps[..n][i].Load?; }
    }
  }

  // Some alarm joined the session after step `load`, before the row was marked closing, and asked
  // for an end beyond `end`.
  ghost predicate LateJoin(cfg: Config, states: seq<System>, steps: seq<Step>, load: nat, id: string, end: int)
    requires |states| == |steps| + 1
  {
    exists i :: load < i < |steps| && LateAt(cfg, states[i], steps[i], id, end)
  }

  ghost predicate LateAt(cfg: Config, s: System, step: Step, id: string, end: int) {
    && Joins(s, step, id) && s.fin.Loaded? && id in s.tables.sessions
    && end < AskedEnd(cfg, step.alarm, s.tables.sessions[id])
  }

  ghost predicate CoveredBy(s: System, id: string, end: int) {
    id in s.tables.sessions && forall a | a in s.arrivals && a.session == id :: WantedEnd(s.tables.sessions[id], a) <= end
  }

  // One step keeps what is covered, unless it is a late join.
  lemma CoverStep(cfg: Config, s: System, step: Step, end: int)
    requires ValidConfig(cfg) && Inv(cfg, s) && Enabled(s, step) && !s.fin.Idle?
    requires CoveredBy(s, s.fin.id, end) && !LateAt(cfg, s, step, s.fin.id, end)
    ensures CoveredBy(Apply(cfg, s, step), s.fin.id, end)
  {
    StartKept(cfg, s, step, s.fin.id);
  }

  // At the load itself everything asked for so far is covered.
  lemma LoadCovers(cfg: Config, s: System, id: string)
    requires ValidConfig(cfg) && Inv(cfg, s) && Enabled(s, Load(id))
    ensures var s' := Apply(cfg, s, Load(id)); s'.fin == Loaded(id, s.tables.sessions[id]) && CoveredBy(s', id, WindowEnd(cfg, s'.fin.snap))
  {}

  lemma {:induction false} CoveredUntil(cfg: Config, states: seq<System>, steps: seq<Step>, load: nat, n: nat)
    requires FullTrace(cfg, states, steps) && LoadedAt(states, steps, load) && load < n <= |steps|
    requires !LateJoin(cfg, states, steps, load, states[|steps|].fin.id, WindowEnd(cfg, states[|steps|].fin.snap))
    ensures CoveredBy(states[n], states[|steps|].fin.id, WindowEnd(cfg, states[|steps|].fin.snap))
  {
    hide Apply, Enabled, Inv, LateAt, CoveredBy, WindowEnd, ValidConfig;
    var id, snap := states[|steps|].fin.id, states[|steps|].fin.snap;
    TraceKeepsInv(cfg, states, steps, n - 1);
    assert Enabled(states[n - 1], steps[n - 1]) && states[n] == Apply(cfg, states[n - 1], steps[n - 1]);
    assert Busy(states[n].fin, id, snap);
    if n == load + 1 {
      LoadCovers(cfg, states[n - 1], id);
    } else {
      CoveredUntil(cfg, states, steps, load, n - 1);
      assert Busy(states[n - 1].fin, id, snap);
      assert !LateAt(cfg, states[n - 1], steps[n - 1], id, WindowEnd(cfg, snap));
      CoverStep(cfg, states[n - 1], steps[n - 1], WindowEnd(cfg, snap));
    }
  }

  // What an arrival asked for stays asked for.
  lemma {:induction false} ArrivalStays(cfg: Config, states: seq<System>, steps: seq<Step>, i: nat, n: nat, a: Arrival)
    requires FullTrace(cfg, states, steps) && i <= n <= |steps| && a in states[i].arrivals && a.session in states[i].tables.sessions
    ensures a in states[n].arrivals && a.session in states[n].tables.sessions
    ensures WantedEnd(states[n].tables.sessions[a.session], a) == WantedEnd(states[i].tables.sessions[a.session], a)
    decreases n
  {
    if i < n {
      ArrivalStays(cfg, states, steps, i, n - 1, a);
      assert Enabled(states[n - 1], steps[n - 1]) && states[n] == Apply(cfg, states[n - 1], steps[n - 1]);
      StartKept(cfg, states[n - 1], steps[n - 1], a.session);
    }
  }

  /** In every run that leaves the finalizer at work, its window is at most max + pre + settle long,
      and it reaches the end every attached alarm asks for if and only if no alarm that joined the
      session between its load and its mark asked for an end beyond the loaded one plus the settle time. */
  lemma WindowCoversIff(cfg: Config, states: seq<System>, steps: seq<Step>) returns (load: nat)
    requires FullTrace(cfg, states, steps) && !states[|steps|].fin.Idle?
    ensures LoadedAt(states, steps, load)
    ensures var s := states[|steps|];
      && WindowStart(s.fin.snap) == s.fin.snap.startedAt - s.fin.snap.pre * SECOND
      && WindowEnd(cfg, s.fin.snap) == s.fin.snap.expectedEndAt + cfg.settle * SECOND
      && WindowEnd(cfg, s.fin.snap) - WindowStart(s.fin.snap) <= (cfg.maxSession + s.fin.snap.pre + cfg.settle) * SECOND
      && (CoveredBy(s, s.fin.id, WindowEnd(cfg, s.fin.snap))
          <==> !LateJoin(cfg, states, steps, load, s.fin.id, WindowEnd(cfg, s.fin.snap)))
  {
    load := LoadOf(cfg, states, steps);
    var n := |steps|;
    var id, end := states[n].fin.id, WindowEnd(cfg, states[n].fin.snap);
    TraceKeepsInv(cfg, states, steps, n);
    if i: nat :| load < i < n && LateAt(cfg, states[i], steps[i], id, end) {
      var a := Arrival(id, steps[i].alarm.now, PostSeconds(cfg, steps[i].alarm));
      assert states[i + 1] == Apply(cfg, states[i], steps[i]);
      StartKept(cfg, states[i], steps[i], id);
      ArrivalStays(cfg, states, steps, i + 1, n, a);
      assert !CoveredBy(states[n], id, end);
    } else {
      CoveredUntil(cfg, states, steps, load, n);
    }
  }

  // --- What becomes of the events of an alarm ---

  // The relations of a session stay.
  lemma RelationsStay(cfg: Config, s: System, step: Step)
    requires Enabled(s, step)
    ensures s.tables.relations <= Apply(cfg, s, step).tables.relations
  {}

  /** In every run each event of an alarm that committed stays related to the session the alarm joined. */
  lemma {:induction false} AlarmedStaysRelated(cfg: Config, states: seq<System>, steps: seq<Step>, i: nat, n: nat, event: string)
    requires FullTrace(cfg, states, steps) && i < n <= |steps| && steps[i].Attach? && event in steps[i].alarm.events
    ensures Enabled(states[i], steps[i])
    ensures Relation(Joined(states[i], steps[i]), event) in states[n].tables.relations
    decreases n
  {
    assert Enabled(states[n - 1], steps[n - 1]) && states[n] == Apply(cfg, states[n - 1], steps[n - 1]);
    var step := steps[i];
    if i == n - 1 {
      AllEventsAttached(states[i].tables, cfg, step.alarm, step.found, step.freshId);
    } else {
      AlarmedStaysRelated(cfg, states, steps, i, n - 1, event);
      RelationsStay(cfg, states[n - 1], steps[n - 1]);
    }
  }

  /** So the finalizer of that session lists it, */
  lemma AlarmedIsListed(cfg: Config, states: seq<System>, steps: seq<Step>, i: nat, event: string)
    requires FullTrace(cfg, states, steps) && i < |steps| && steps[i].Attach? && event in steps[i].alarm.events
    requires Enabled(states[i], steps[i])
    requires states[|steps|].fin.Listed? && states[|steps|].fin.id == Joined(states[i], steps[i])
    ensures event in states[|steps|].fin.events
  {
    AlarmedStaysRelated(cfg, states, steps, i, |steps|, event);
    TraceKeepsInv(cfg, states, steps, |steps|);
  }

  /** and once a session of its is finished, the event shows that session's clip, or belongs to another
      session as well: none is forgotten, unless the last event update of the session failed and its
      error was discarded. */
  lemma AlarmedGetsClip(cfg: Config, states: seq<System>, steps: seq<Step>, i: nat, event: string)
    requires FullTrace(cfg, states, steps) && i < |steps| && steps[i].Attach? && event in steps[i].alarm.events
    requires Enabled(states[i], steps[i]) && event in states[|steps|].tables.events
    ensures var t, id := states[|steps|].tables, Joined(states[i], steps[i]);
      && id in t.sessions
      && var row, e := t.sessions[id], t.events[event];
      && (e.session != id ==> e.session in t.sessions && Relation(e.session, event) in t.relations)
      && (Terminal(row.status) && e.session == id && id !in states[|steps|].skipped ==>
            e == Event(id, true, row.clipPath, row.clipFiles))
  {
    AlarmedStaysRelated(cfg, states, steps, i, |steps|, event);
    TraceKeepsInv(cfg, states, steps, |steps|);
    assert Relation(Joined(states[i], steps[i]), event) in states[|steps|].tables.relations;
  }
}
