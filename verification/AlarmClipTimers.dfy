/** The timers of alarm-clip sessions with every action a step of its own: committing an alarm, scheduling
    its timer, the firing, the callback's check, its query, and the finalizer's statements with the cancel
    between them. They interleave freely; a crash, which loses all timers, is left to recovery. */
module AlarmClipTimers {
  import opened Wrappers
  import opened AlarmClipTables
  import P = AlarmClipProtocol
  import opened AlarmClipRuntime
  import opened AlarmClipDeadlines

  // A committed alarm's handler that has yet to schedule the timer.
  datatype Due = Due(source: string, expectedEnd: int)

  // A callback that was started and has yet to check its number.
  datatype Shot = Shot(source: string, seqNo: nat)

  /** `running` are the sources whose timer has not fired yet, `seekers` the callbacks that took their
      timer away and have yet to query, `waiting` the sessions found, whose finalize has yet to get the
      lock; `cancelled` says whether the finalizer at work is past its cancel. `outrun` and `gone` are
      history; `gone` holds the sources which, since their timer was last scheduled, lost it to the
      cancel of a finalizer, or have none left after an attempt to end a session came to nothing. */
  datatype State = State(
    sys: P.System, timers: map<string, Timer>, running: set<string>, due: multiset<Due>, shots: multiset<Shot>,
    seekers: multiset<string>, waiting: multiset<string>, cancelled: bool, outrun: set<string>, gone: set<string>)

  datatype Tick =
    | Commit(alarm: Alarm, found: Option<string>, freshId: string)
    | Schedule(what: Due)
    | Fire(source: string)
    | Check(shot: Shot)
    | Query(source: string, found: Option<string>, ok: bool)
    | Enter(id: string)
    | GiveUp(id: string)
    | MarkRow(ok: bool)
    | Cancel
    | Work(step: P.Step)

  ghost predicate Starts(s: State) {
    && P.IsInit(s.sys) && s.timers == map[] && s.running == {} && s.due == multiset{} && s.shots == multiset{}
    && s.seekers == multiset{} && s.waiting == multiset{} && !s.cancelled && s.outrun == {} && s.gone == {}
  }

  ghost predicate Possible(s: State, t: Tick) {
    match t
    case Commit(alarm, found, freshId) => P.Enabled(s.sys, P.Attach(alarm, found, freshId))
    case Schedule(what) => what in s.due
    case Fire(source) => source in s.running && source in s.timers
    case Check(shot) => shot in s.shots
    case Query(source, found, _) => source in s.seekers && IsActive(s.sys.tables, source, found)
    case Enter(id) => id in s.waiting && P.Enabled(s.sys, P.Load(id))
    case GiveUp(id) => id in s.waiting && s.sys.fin.Idle? && id in s.sys.tables.sessions
    case MarkRow(ok) => P.Enabled(s.sys, P.Mark(ok))
    case Cancel => s.sys.fin.Marked? && !s.cancelled
    case Work(step) =>
      P.Enabled(s.sys, step) && (step.NewEvent? || (step.List? && s.cancelled) || step.Update? || step.Close?)
  }

  // An attempt to end a session of `source` came to nothing.
  function Missed(s: State, source: string): set<string> {
    if source in s.timers then s.gone else s.gone + {source}
  }

  // The ticks that touch timers and callbacks only.
  predicate TimerTick(t: Tick) {
    t.Schedule? || t.Fire? || t.Check? || t.Query? || t.GiveUp? || t.Cancel?
  }

  ghost function Turned(cfg: Config, s: State, t: Tick): (r: State)
    requires Possible(s, t) && TimerTick(t)
    ensures r.sys == s.sys && r.outrun == s.outrun
  {
    match t
    case Schedule(what) =>
      s.(due := s.due - multiset{what}, timers := Rearmed(s.timers, what.source, what.expectedEnd + cfg.settle * SECOND),
         running := s.running + {what.source}, gone := s.gone - {what.source})
    case Fire(source) =>
      s.(running := s.running - {source}, shots := s.shots + multiset{Shot(source, s.timers[source].seqNo)})
    case Check(shot) =>
      var rest := s.(shots := s.shots - multiset{shot});
      if shot.source in s.timers && s.timers[shot.source].seqNo == shot.seqNo then
        rest.(timers := s.timers - {shot.source}, running := s.running - {shot.source}, seekers := s.seekers + multiset{shot.source})
      else rest
    case Query(source, found, ok) =>
      var rest := s.(seekers := s.seekers - multiset{source});
      if ok && found.Some? then rest.(waiting := s.waiting + multiset{found.value}) else rest.(gone := Missed(s, source))
    case GiveUp(id) => s.(waiting := s.waiting - multiset{id}, gone := Missed(s, s.sys.tables.sessions[id].source))
    case Cancel =>
      var source := s.sys.fin.snap.source;
      s.(timers := s.timers - {source}, running := s.running - {source}, cancelled := true,
         gone := if source in s.timers then s.gone + {source} else s.gone)
  }

  ghost function Next(cfg: Config, s: State, t: Tick): State
    requires Possible(s, t)
  {
    match t
    case Commit(alarm, found, freshId) =>
      var sys := P.Apply(cfg, s.sys, P.Attach(alarm, found, freshId));
      var id := Target(s.sys.tables, alarm, found, freshId);
      s.(sys := sys, due := s.due + multiset{Due(alarm.source, sys.tables.sessions[id].expectedEndAt)},
         outrun := OutrunAfter(s.sys.tables, s.outrun, alarm, found, freshId))
    case Enter(id) => s.(sys := P.Apply(cfg, s.sys, P.Load(id)), waiting := s.waiting - multiset{id}, cancelled := false)
    case MarkRow(ok) =>
      var sys := P.Apply(cfg, s.sys, P.Mark(ok));
      s.(sys := sys, gone := if sys.fin.Idle? then Missed(s, s.sys.fin.snap.source) else s.gone)
    case Work(step) => s.(sys := P.Apply(cfg, s.sys, step))
    case _ => Turned(cfg, s, t)
  }

  ghost predicate Run(cfg: Config, states: seq<State>, ticks: seq<Tick>) {
    && |states| == |ticks| + 1
    && forall i | 0 <= i < |ticks| :: Possible(states[i], ticks[i]) && states[i + 1] == Next(cfg, states[i], ticks[i])
  }

  // --- What every step keeps ---

  // Somebody is about to end session `id`, or to look for the active session of its source.
  predicate OnItsWay(s: State, source: string, id: string) {
    source in s.seekers || id in s.waiting || (s.sys.fin.Loaded? && s.sys.fin.id == id)
  }

  predicate HasDue(s: State, source: string) {
    exists d :: d in s.due && d.source == source
  }

  ghost predicate Cared(s: State, source: string, id: string) {
    source in s.timers || HasDue(s, source) || OnItsWay(s, source, id) || source in s.gone
  }

  // Every current session has its timer, or will get it, or is being ended, or lost it.
  ghost predicate CaredOk(s: State) {
    && (forall id, source | IsCurrent(s.sys.tables, s.outrun, source, id) :: Cared(s, source, id))
    && (forall source | source in s.timers :: source !in s.gone)
  }

  // An entry in the table is a timer that runs or one whose callback is under way with its number.
  ghost predicate Alive(s: State) {
    forall source | source in s.timers :: source in s.running || Shot(source, s.timers[source].seqNo) in s.shots
  }

  ghost predicate StateOk(cfg: Config, s: State) {
    P.Inv(cfg, s.sys) && OrderOk(cfg, s.sys.tables, s.outrun) && CaredOk(s) && Alive(s)
  }

  lemma AliveStep(cfg: Config, s: State, t: Tick)
    requires Alive(s) && Possible(s, t)
    ensures Alive(Next(cfg, s, t))
  {}

  lemma CommitKeeps(cfg: Config, s: State, t: Tick)
    requires ValidConfig(cfg) && P.FinalizerOk(s.sys) && OrderOk(cfg, s.sys.tables, s.outrun) && CaredOk(s) && Possible(s, t) && t.Commit?
    ensures var s' := Next(cfg, s, t); OrderOk(cfg, s'.sys.tables, s'.outrun) && CaredOk(s')
  {
    var s', id := Next(cfg, s, t), Target(s.sys.tables, t.alarm, t.found, t.freshId);
    OrderAfterAlarm(cfg, s.sys.tables, s.outrun, t.alarm, t.found, t.freshId);
    var mine := Due(t.alarm.source, s'.sys.tables.sessions[id].expectedEndAt);
    assert mine in s'.due;
    forall k, source | IsCurrent(s'.sys.tables, s'.outrun, source, k) ensures Cared(s', source, k) {
      if k != id {
        assert Cared(s, source, k);
        if HasDue(s, source) {
          var d :| d in s.due && d.source == source;
          assert d in s'.due;
        }
      }
    }
  }

  lemma DueStays(cfg: Config, s: State, t: Tick, source: string)
    requires Possible(s, t) && TimerTick(t) && HasDue(s, source)
    ensures var s' := Turned(cfg, s, t); HasDue(s', source) || source in s'.timers
  {
    var d :| d in s.due && d.source == source;
    if !(t.Schedule? && t.what == d) { assert d in Turned(cfg, s, t).due; }
  }

  // The timer stays, or its callback goes on, or it is lost and known to be.
  lemma TimerStays(cfg: Config, s: State, t: Tick, source: string, id: string)
    requires Possible(s, t) && TimerTick(t) && (source in s.timers || source in s.gone)
    ensures Cared(Turned(cfg, s, t), source, id)
  {
    hide P.Enabled, IsActive;
  }

  lemma SeekerStays(cfg: Config, s: State, t: Tick, source: string, id: string)
    requires OrderOk(cfg, s.sys.tables, s.outrun) && IsCurrent(s.sys.tables, s.outrun, source, id)
    requires Possible(s, t) && TimerTick(t) && source in s.seekers
    ensures Cared(Turned(cfg, s, t), source, id)
  {
    if t.Query? && t.source == source {
      CurrentIsActive(cfg, s.sys.tables, s.outrun, source, id, t.found);
    } else {
      assert source in Turned(cfg, s, t).seekers by { hide P.Enabled, IsActive, OrderOk, IsCurrent; }
    }
  }

  lemma WaiterStays(cfg: Config, s: State, t: Tick, source: string, id: string)
    requires IsCurrent(s.sys.tables, s.outrun, source, id) && Possible(s, t) && TimerTick(t) && id in s.waiting
    ensures Cared(Turned(cfg, s, t), source, id)
  {
    hide P.Enabled, IsActive;
    if !(t.GiveUp? && t.id == id) { assert id in Turned(cfg, s, t).waiting; }
  }

  lemma GoneApart(cfg: Config, s: State, t: Tick, source: string)
    requires Possible(s, t) && TimerTick(t) && !(source in s.timers && source in s.gone)
    ensures !(source in Turned(cfg, s, t).timers && source in Turned(cfg, s, t).gone)
  {
    hide P.Enabled, IsActive;
  }

  // The steps that leave the database alone.
  lemma TimerStepKeeps(cfg: Config, s: State, t: Tick)
    requires OrderOk(cfg, s.sys.tables, s.outrun) && CaredOk(s) && Possible(s, t) && TimerTick(t)
    ensures var s' := Turned(cfg, s, t); OrderOk(cfg, s'.sys.tables, s'.outrun) && CaredOk(s')
  {
    hide OrderOk, HasDue, IsCurrent, Turned, Possible;
    var s' := Turned(cfg, s, t);
    forall source | source in s'.timers ensures source !in s'.gone { GoneApart(cfg, s, t, source); }
    forall id, source | IsCurrent(s'.sys.tables, s'.outrun, source, id) ensures Cared(s', source, id) {
      assert IsCurrent(s.sys.tables, s.outrun, source, id) && Cared(s, source, id);
      if HasDue(s, source) {
        DueStays(cfg, s, t, source);
      } else if source in s.seekers {
        SeekerStays(cfg, s, t, source, id);
      } else if id in s.waiting {
        WaiterStays(cfg, s, t, source, id);
      } else if source in s.timers || source in s.gone {
        TimerStays(cfg, s, t, source, id);
      }
    }
  }

  lemma FinalizerOnlyEnds(cfg: Config, sys: P.System, step: P.Step)
    requires P.FinalizerOk(sys) && P.Enabled(sys, step) && !step.Attach? && !step.Crash?
    ensures OnlyEnds(sys.tables, P.Apply(cfg, sys, step).tables)
  {}

  // The finalizer's statements.
  lemma FinalizerKeeps(cfg: Config, s: State, t: Tick)
    requires P.FinalizerOk(s.sys) && OrderOk(cfg, s.sys.tables, s.outrun) && CaredOk(s) && Possible(s, t)
    requires t.Enter? || t.MarkRow? || t.Work?
    ensures var s' := Next(cfg, s, t); OrderOk(cfg, s'.sys.tables, s'.outrun) && CaredOk(s')
  {
    hide OrderOk, IsActive, OnlyEnds;
    var s' := Next(cfg, s, t);
    FinalizerOnlyEnds(cfg, s.sys, if t.Enter? then P.Load(t.id) else if t.MarkRow? then P.Mark(t.ok) else t.step);
    OrderAfterEnds(cfg, s.sys.tables, s'.sys.tables, s.outrun);
    forall k, source | IsCurrent(s'.sys.tables, s'.outrun, source, k) ensures Cared(s', source, k) {
      assert IsCurrent(s.sys.tables, s.outrun, source, k) && Cared(s, source, k);
      if HasDue(s, source) { assert HasDue(s', source); }
    }
  }

  lemma StepKeeps(cfg: Config, s: State, t: Tick)
    requires ValidConfig(cfg) && StateOk(cfg, s) && Possible(s, t)
    ensures StateOk(cfg, Next(cfg, s, t))
  {
    hide OrderOk, CaredOk, Alive;
    AliveStep(cfg, s, t);
    match t
    case Commit(alarm, found, freshId) =>
      P.InvStep(cfg, s.sys, P.Attach(alarm, found, freshId));
      CommitKeeps(cfg, s, t);
    case Enter(id) =>
      P.InvStep(cfg, s.sys, P.Load(id));
      FinalizerKeeps(cfg, s, t);
    case MarkRow(ok) =>
      P.InvStep(cfg, s.sys, P.Mark(ok));
      FinalizerKeeps(cfg, s, t);
    case Work(step) =>
      P.InvStep(cfg, s.sys, step);
      FinalizerKeeps(cfg, s, t);
    case _ => TimerStepKeeps(cfg, s, t);
  }

  lemma {:induction false} RunKeepsState(cfg: Config, states: seq<State>, ticks: seq<Tick>, n: nat)
    requires ValidConfig(cfg) && Run(cfg, states, ticks) && StateOk(cfg, states[0]) && n <= |ticks|
    ensures StateOk(cfg, states[n])
  {
    hide StateOk, Next, Possible;
    if n > 0 {
      RunKeepsState(cfg, states, ticks, n - 1);
      StepKeeps(cfg, states[n - 1], ticks[n - 1]);
    }
  }

  lemma StartOk(cfg: Config, s: State)
    requires Starts(s)
    ensures StateOk(cfg, s)
  {}

  // --- When an active session has its timer ---

  // No handler has yet to schedule a timer of the source, and nobody is about to end the session.
  predicate Settled(s: State, source: string, id: string) {
    !HasDue(s, source) && !OnItsWay(s, source, id)
  }

  // The source's timer runs, or its callback is under way with the current number.
  predicate HasTimer(s: State, source: string) {
    source in s.timers && (source in s.running || Shot(source, s.timers[source].seqNo) in s.shots)
  }

  /** In every run, a recording session that no other one of its source outran is the active one; and
      when its alarms are scheduled and nobody is about to end it, it has its timer if and only if since
      the last scheduling no finalizer cancelled the timer and no attempt that left none came to nothing. */
  lemma TimerIff(cfg: Config, states: seq<State>, ticks: seq<Tick>, source: string, id: string)
    requires ValidConfig(cfg) && Run(cfg, states, ticks) && Starts(states[0])
    requires IsCurrent(states[|ticks|].sys.tables, states[|ticks|].outrun, source, id)
    ensures var s := states[|ticks|];
      && IsActive(s.sys.tables, source, Some(id))
      && (Settled(s, source, id) ==> (HasTimer(s, source) <==> source !in s.gone))
  {
    StartOk(cfg, states[0]);
    RunKeepsState(cfg, states, ticks, |ticks|);
    assert Cared(states[|ticks|], source, id);
  }

  // What can become of an armed timer in one step.
  lemma TimerTaken(cfg: Config, s: State, t: Tick, source: string)
    requires Possible(s, t) && source in s.timers
    ensures var s' := Next(cfg, s, t);
      source in s'.timers || (t.Check? && source in s'.seekers) || (t.Cancel? && s.sys.fin.snap.source == source)
  {}

  lemma CancelTakes(cfg: Config, s: State, source: string, id: string)
    requires Possible(s, Cancel)
    ensures Settled(Next(cfg, s, Cancel), source, id) <==> Settled(s, source, id)
    ensures s.sys.fin.snap.source == source ==> source !in Next(cfg, s, Cancel).timers
  {
    var s' := Next(cfg, s, Cancel);
    assert s'.due == s.due;
    assert HasDue(s', source) <==> HasDue(s, source);
  }

  /** The only step by which an active session loses its timer, with none to come and nobody about to end
      it, is a finalizer's cancel; and that finalizer works on another session of the same source. */
  lemma LostByCancelIff(cfg: Config, s: State, t: Tick, source: string, id: string)
    requires ValidConfig(cfg) && StateOk(cfg, s) && Possible(s, t) && HasTimer(s, source)
    requires IsCurrent(s.sys.tables, s.outrun, source, id)
    ensures !HasTimer(Next(cfg, s, t), source) && Settled(Next(cfg, s, t), source, id) <==>
      t.Cancel? && s.sys.fin.snap.source == source && Settled(s, source, id)
    ensures t.Cancel? ==> s.sys.fin.id != id
  {
    hide Next, P.Inv, OrderOk, CaredOk, HasDue, P.Enabled;
    AliveStep(cfg, s, t);
    TimerTaken(cfg, s, t, source);
    if t.Cancel? {
      CancelTakes(cfg, s, source, id);
      MarkedIsClosing(cfg, s);
    }
  }

  lemma MarkedIsClosing(cfg: Config, s: State)
    requires StateOk(cfg, s) && s.sys.fin.Marked?
    ensures s.sys.fin.id in s.sys.tables.sessions && s.sys.tables.sessions[s.sys.fin.id].status.Closing?
  {}

  // --- A finalizer that takes the next session's timer away ---

  ghost predicate Reachable(cfg: Config, init: State, s: State) {
    exists states, ticks :: Run(cfg, states, ticks) && states[0] == init && states[|ticks|] == s
  }

  lemma Reach(cfg: Config, init: State, s: State, t: Tick) returns (next: State)
    requires Reachable(cfg, init, s) && Possible(s, t)
    ensures Reachable(cfg, init, next) && next == Next(cfg, s, t)
  {
    var states, ticks :| Run(cfg, states, ticks) && states[0] == init && states[|ticks|] == s;
    next := Next(cfg, s, t);
    assert Run(cfg, states + [next], ticks + [t]);
    assert (states + [next])[|ticks + [t]|] == next;
  }

  const SECOND_ALARM := Alarm("cam", 7 * SECOND, 7 * SECOND, 3, 4, ["e2"])

  // The first session is open and its timer scheduled.
  lemma ScheduledExample(init: State) returns (s: State)
    requires Starts(init)
    ensures Reachable(P.DEFAULTS, init, s) && s.sys.tables.sessions == map["s1" := P.OPENED] && s.sys.fin.Idle?
    ensures "cam" in s.timers && s.timers["cam"].seqNo == 1
    ensures s == State(s.sys, map["cam" := s.timers["cam"]], {"cam"}, multiset{}, multiset{}, multiset{}, multiset{}, false, {}, {})
  {
    hide Reachable, PostSeconds, PreSeconds;
    NoSteps(init);
    s := Reach(P.DEFAULTS, init, init, Commit(P.FIRST, None, "s1"));
    assert s.sys.tables.sessions == map["s1" := P.OPENED] && s.outrun == {};
    s := Reach(P.DEFAULTS, init, s, Schedule(Due("cam", P.OPENED.expectedEndAt)));
  }

  lemma NoSteps(init: State)
    ensures Reachable(P.DEFAULTS, init, init)
  {
    assert Run(P.DEFAULTS, [init], []) && [init][0] == init;
  }

  // Its timer has fired and its callback has taken the timer away.
  lemma CheckedExample(init: State) returns (s: State)
    requires Starts(init)
    ensures Reachable(P.DEFAULTS, init, s) && s.sys.tables.sessions == map["s1" := P.OPENED] && s.sys.fin.Idle?
    ensures s == State(s.sys, map[], {}, multiset{}, multiset{}, multiset{"cam"}, multiset{}, false, {}, {})
  {
    hide Reachable, P.OPENED;
    s := ScheduledExample(init);
    s := Reach(P.DEFAULTS, init, s, Fire("cam"));
    s := Reach(P.DEFAULTS, init, s, Check(Shot("cam", 1)));
    assert s.timers == map[];
  }

  // The finalizer has marked the session and not yet cancelled.
  lemma MarkedExample(init: State) returns (s: State)
    requires Starts(init)
    ensures Reachable(P.DEFAULTS, init, s) && s.sys.tables.sessions == map["s1" := P.OPENED.(status := Closing)]
    ensures s.sys.fin == P.Marked("s1", P.OPENED)
    ensures s == State(s.sys, map[], {}, multiset{}, multiset{}, multiset{}, multiset{}, false, {}, {})
  {
    hide Reachable;
    s := CheckedExample(init);
    assert IsActive(s.sys.tables, "cam", Some("s1"));
    s := Reach(P.DEFAULTS, init, s, Query("cam", Some("s1"), true));
    s := Reach(P.DEFAULTS, init, s, Enter("s1"));
    s := Reach(P.DEFAULTS, init, s, MarkRow(true));
  }

  /** Outside recovery too the active session can lose its timer: an alarm opens and schedules the next
      session between the finalizer's mark of the last one and its cancel by source. */
  lemma TakenTimerExample(init: State) returns (s: State)
    requires Starts(init)
    ensures Reachable(P.DEFAULTS, init, s)
    ensures IsCurrent(s.sys.tables, s.outrun, "cam", "s2") && Settled(s, "cam", "s2") && !HasTimer(s, "cam")
  {
    s := MarkedExample(init);
    assert IsActive(s.sys.tables, "cam", None);
    s := Reach(P.DEFAULTS, init, s, Commit(SECOND_ALARM, None, "s2"));
    assert s.sys.tables.sessions["s2"] == OpenedRow(P.DEFAULTS, SECOND_ALARM);
    s := Reach(P.DEFAULTS, init, s, Schedule(Due("cam", s.sys.tables.sessions["s2"].expectedEndAt)));
    s := Reach(P.DEFAULTS, init, s, Cancel);
  }
}
