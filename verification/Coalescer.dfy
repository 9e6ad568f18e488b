/** The coalescing single-flight workers of pull self-healing and of GB28181 automatic invites:
    one running and one pending flag per key, a worker that runs its body again while the pending
    flag is set, and any number of callers. The three copies in the server differ in their key only. */
module Coalescer {
  import opened Text

  // --- The two flag tables, each operation under the lock ---

  datatype Flags = Flags(running: map<string, bool>, pending: map<string, bool>)

  // A missing key reads as false.
  predicate On(table: map<string, bool>, key: string) {
    key in table && table[key]
  }

  predicate Spawns(f: Flags, key: string) {
    key != "" && !On(f.running, key)
  }

  function Scheduled(f: Flags, key: string): Flags {
    if key == "" then f
    else if On(f.running, key) then f.(pending := f.pending[key := true])
    else f.(running := f.running[key := true])
  }

  function Settled(f: Flags, key: string): Flags {
    if On(f.pending, key) then f.(pending := f.pending[key := false])
    else Flags(f.running - {key}, f.pending - {key})
  }

  // --- Runs: callers and workers interleaved ---

  datatype Phase = Ready | Busy | Done

  datatype Worker = Worker(key: string, phase: Phase)

  datatype State = State(flags: Flags, workers: map<nat, Worker>, spawned: nat)

  datatype Event =
    | Called(key: string)
    | Started(key: string, worker: nat)
    | Finished(key: string, worker: nat)
    | Checked(key: string, worker: nat)

  const EMPTY := State(Flags(map[], map[]), map[], 0)

  predicate Step(s: State, e: Event, t: State) {
    match e
    case Called(key) =>
      t == State(Scheduled(s.flags, key),
                 if Spawns(s.flags, key) then s.workers[s.spawned := Worker(key, Ready)] else s.workers,
                 s.spawned + 1)
    case Started(key, w) =>
      w in s.workers && s.workers[w] == Worker(key, Ready) && t == s.(workers := s.workers[w := Worker(key, Busy)])
    case Finished(key, w) =>
      w in s.workers && s.workers[w] == Worker(key, Busy) && t == s.(workers := s.workers[w := Worker(key, Done)])
    case Checked(key, w) =>
      && w in s.workers && s.workers[w] == Worker(key, Done)
      && t == State(Settled(s.flags, key),
                    if On(s.flags.pending, key) then s.workers[w := Worker(key, Ready)] else s.workers - {w},
                    s.spawned)
  }

  predicate Run(states: seq<State>, events: seq<Event>) {
    |states| == |events| + 1 && forall i | 0 <= i < |events| :: Step(states[i], events[i], states[i + 1])
  }

  predicate FullRun(states: seq<State>, events: seq<Event>) {
    Run(states, events) && states[0] == EMPTY
  }

  // --- The invariant ---

  ghost predicate WorkersUnique(s: State) {
    && (forall w | w in s.workers :: w < s.spawned && s.workers[w].key != "" && On(s.flags.running, s.workers[w].key))
    && (forall w, v | w in s.workers && v in s.workers && s.workers[w].key == s.workers[v].key :: w == v)
  }

  ghost predicate HasWorker(s: State, key: string) {
    exists w :: w in s.workers && s.workers[w].key == key
  }

  ghost predicate RunningHasWorker(s: State) {
    forall key | key in s.flags.running :: s.flags.running[key] && HasWorker(s, key)
  }

  ghost predicate PendingIsRunning(s: State) {
    forall key | key in s.flags.pending :: key in s.flags.running
  }

  ghost predicate Inv(s: State) {
    WorkersUnique(s) && RunningHasWorker(s) && PendingIsRunning(s)
  }

  lemma RunningStep(s: State, e: Event, t: State)
    requires Inv(s) && Step(s, e, t)
    ensures RunningHasWorker(t)
  {
    forall key | key in t.flags.running ensures t.flags.running[key] && HasWorker(t, key) {
      if key in s.flags.running {
        var w :| w in s.workers && s.workers[w].key == key;
        assert w in t.workers && t.workers[w].key == key;
      } else {
        assert t.workers[s.spawned].key == key;
      }
    }
  }

  lemma WorkersStep(s: State, e: Event, t: State)
    requires Inv(s) && Step(s, e, t)
    ensures WorkersUnique(t)
  {
    hide RunningHasWorker;
    if e.Called? {
      assert forall w | w in s.workers :: On(t.flags.running, s.workers[w].key);
      if Spawns(s.flags, e.key) {
        assert forall w | w in s.workers :: s.workers[w].key != e.key;
      }
    } else {
      assert forall w | w in s.workers && s.workers[w].key == e.key :: w == e.worker;
    }
  }

  lemma StepKeepsInv(s: State, e: Event, t: State)
    requires Inv(s) && Step(s, e, t)
    ensures Inv(t)
  {
    hide WorkersUnique;
    WorkersStep(s, e, t);
    RunningStep(s, e, t);
  }

  lemma {:induction false} RunKeepsInv(states: seq<State>, events: seq<Event>, n: nat)
    requires Run(states, events) && Inv(states[0]) && n <= |events|
    ensures Inv(states[n])
  {
    if n > 0 {
      RunKeepsInv(states, events, n - 1);
      StepKeepsInv(states[n - 1], events[n - 1], states[n]);
    }
  }

  /** In every reachable state at most one worker, hence at most one body, serves a key; a key has a
      worker exactly while it is marked running, and only running keys can be pending. */
  lemma OneBodyPerKey(states: seq<State>, events: seq<Event>, n: nat)
    requires FullRun(states, events) && n <= |events|
    ensures forall w, v | w in states[n].workers && v in states[n].workers && states[n].workers[w].key == states[n].workers[v].key :: w == v
    ensures forall key :: On(states[n].flags.running, key) <==> HasWorker(states[n], key)
    ensures states[n].flags.pending.Keys <= states[n].flags.running.Keys
  {
    RunKeepsInv(states, events, n);
  }

  // --- Bodies owed ---

  ghost predicate ReadyFor(s: State, key: string) {
    exists w :: w in s.workers && s.workers[w] == Worker(key, Ready)
  }

  // How many more bodies run for `key` if nobody calls again.
  ghost function Owed(s: State, key: string): nat {
    (if ReadyFor(s, key) then 1 else 0) + (if On(s.flags.pending, key) then 1 else 0)
  }

  function CountStarts(events: seq<Event>, key: string): nat {
    if events == [] then 0
    else
      var e := events[|events| - 1];
      CountStarts(events[..|events| - 1], key) + if e.Started? && e.key == key then 1 else 0
  }

  function CountCalls(events: seq<Event>, key: string): nat {
    if events == [] then 0
    else CountCalls(events[..|events| - 1], key) + if events[|events| - 1] == Called(key) then 1 else 0
  }

  lemma ReadyAt(s: State, key: string, w: nat)
    requires WorkersUnique(s) && w in s.workers && s.workers[w].key == key
    ensures ReadyFor(s, key) <==> s.workers[w].phase == Ready
  {}

  lemma ReadyWitness(s: State, key: string) returns (w: nat)
    requires ReadyFor(s, key)
    ensures w in s.workers && s.workers[w] == Worker(key, Ready)
  {
    w :| w in s.workers && s.workers[w] == Worker(key, Ready);
  }

  ghost predicate SameWorkers(s: State, t: State, key: string) {
    && (forall w | w in s.workers && s.workers[w].key == key :: w in t.workers && t.workers[w] == s.workers[w])
    && (forall w | w in t.workers && t.workers[w].key == key :: w in s.workers && t.workers[w] == s.workers[w])
  }

  lemma SameWorkersSameNeeds(s: State, t: State, key: string)
    requires SameWorkers(s, t, key)
    ensures ReadyFor(t, key) == ReadyFor(s, key) && BusyFor(t, key) == BusyFor(s, key)
  {}

  lemma OtherFlags(f: Flags, own: string, key: string)
    requires own != key
    ensures On(Scheduled(f, own).running, key) == On(f.running, key) && On(Scheduled(f, own).pending, key) == On(f.pending, key)
    ensures On(Settled(f, own).running, key) == On(f.running, key) && On(Settled(f, own).pending, key) == On(f.pending, key)
  {}

  // A step about another key touches neither flag nor worker of `key`.
  lemma OtherKey(s: State, e: Event, t: State, key: string)
    requires Inv(s) && Step(s, e, t) && e.key != key
    ensures Owed(t, key) == Owed(s, key) && Rank(t, key) == Rank(s, key)
  {
    assert SameWorkers(s, t, key);
    SameWorkersSameNeeds(s, t, key);
    OtherFlags(s.flags, e.key, key);
  }

  lemma OwedByCall(s: State, key: string, t: State)
    requires Inv(s) && Step(s, Called(key), t) && key != ""
    ensures 1 <= Owed(t, key) && Owed(s, key) <= Owed(t, key) <= Owed(s, key) + 1
  {
    WorkersStep(s, Called(key), t);
    if Spawns(s.flags, key) {
      ReadyAt(t, key, s.spawned);
      assert !On(s.flags.pending, key);
      if ReadyFor(s, key) { var w := ReadyWitness(s, key); }
    } else {
      assert t.workers == s.workers;
    }
  }

  lemma OwedByWorker(s: State, e: Event, t: State)
    requires Inv(s) && Step(s, e, t) && !e.Called?
    ensures Owed(t, e.key) + (if e.Started? then 1 else 0) == Owed(s, e.key)
  {
    WorkersStep(s, e, t);
    ReadyAt(s, e.key, e.worker);
    if e.worker in t.workers {
      ReadyAt(t, e.key, e.worker);
    } else if ReadyFor(t, e.key) {
      var w := ReadyWitness(t, e.key);
    }
  }

  // A call adds at most one owed body and leaves at least one; a body start pays one off.
  lemma OwedStep(s: State, e: Event, t: State, key: string)
    requires Inv(s) && Step(s, e, t)
    ensures e == Called(key) && key != "" ==> 1 <= Owed(t, key) && Owed(s, key) <= Owed(t, key) <= Owed(s, key) + 1
    ensures e.Started? && e.key == key ==> Owed(t, key) + 1 == Owed(s, key)
    ensures !(e.Called? && e.key == key) && !(e.Started? && e.key == key) ==> Owed(t, key) == Owed(s, key)
    ensures e == Called(key) && key == "" ==> Owed(t, key) == Owed(s, key)
  {
    hide Owed;
    if e.key != key {
      OtherKey(s, e, t, key);
    } else if !e.Called? {
      OwedByWorker(s, e, t);
    } else if key != "" {
      OwedByCall(s, key, t);
    } else {
      assert Owed(t, key) == Owed(s, key) by { BlankCall(s, t); }
    }
  }

  lemma BlankCall(s: State, t: State)
    requires Step(s, Called(""), t)
    ensures Owed(t, "") == Owed(s, "")
  {}

  lemma Prefix(states: seq<State>, events: seq<Event>)
    requires Run(states, events) && events != []
    ensures Run(states[..|events|], events[..|events| - 1])
    ensures Step(states[|events| - 1], events[|events| - 1], states[|events|])
  {}

  /** Bodies never outnumber calls: those started and those still owed together are at most the calls made. */
  lemma {:induction false} StartsNeverExceedCalls(states: seq<State>, events: seq<Event>, key: string)
    requires FullRun(states, events)
    ensures CountStarts(events, key) + Owed(states[|events|], key) <= CountCalls(events, key)
  {
    if events != [] {
      Prefix(states, events);
      StartsNeverExceedCalls(states[..|events|], events[..|events| - 1], key);
      RunKeepsInv(states, events, |events| - 1);
      OwedStep(states[|events| - 1], events[|events| - 1], states[|events|], key);
      OwedNothing(states[|events|], key);
      RunKeepsInv(states, events, |events|);
    }
  }

  lemma OwedNothing(s: State, key: string)
    ensures s == EMPTY ==> Owed(s, key) == 0
  {}

  ghost predicate StartedWithin(events: seq<Event>, key: string, from: nat, to: nat)
    requires to <= |events|
  {
    exists j :: from <= j < to && events[j].Started? && events[j].key == key
  }

  lemma {:induction false} StartedOrOwed(states: seq<State>, events: seq<Event>, i: nat, n: nat)
    requires FullRun(states, events) && i < n <= |events| && events[i].Called? && events[i].key != ""
    ensures StartedWithin(events, events[i].key, i + 1, n) || Owed(states[n], events[i].key) > 0
    decreases n
  {
    var key := events[i].key;
    RunKeepsInv(states, events, n - 1);
    assert Step(states[n - 1], events[n - 1], states[n]);
    OwedStep(states[n - 1], events[n - 1], states[n], key);
    if n > i + 1 { StartedOrOwed(states, events, i, n - 1); }
  }

  /** No call is lost: once the key is idle again, a body has started after the call. */
  lemma NoLostCall(states: seq<State>, events: seq<Event>, i: nat)
    requires FullRun(states, events) && i < |events| && events[i].Called? && events[i].key != ""
    requires !On(states[|events|].flags.running, events[i].key)
    ensures StartedWithin(events, events[i].key, i + 1, |events|)
  {
    StartedOrOwed(states, events, i, |events|);
    RunKeepsInv(states, events, |events|);
  }

  // --- Quiet segments: nobody calls for the key ---

  ghost predicate BusyFor(s: State, key: string) {
    exists w :: w in s.workers && s.workers[w] == Worker(key, Busy)
  }

  // How many steps the key's worker still takes if nobody calls.
  ghost function Rank(s: State, key: string): nat {
    if !On(s.flags.running, key) then 0
    else
      (if ReadyFor(s, key) then 3 else if BusyFor(s, key) then 2 else 1) + if On(s.flags.pending, key) then 3 else 0
  }

  predicate Quiet(events: seq<Event>, key: string) {
    forall i | 0 <= i < |events| :: events[i] != Called(key)
  }

  function CountOwn(events: seq<Event>, key: string): nat {
    if events == [] then 0
    else CountOwn(events[..|events| - 1], key) + if events[|events| - 1].key == key then 1 else 0
  }

  lemma BusyAt(s: State, key: string, w: nat)
    requires WorkersUnique(s) && w in s.workers && s.workers[w].key == key
    ensures BusyFor(s, key) <==> s.workers[w].phase == Busy
  {}

  lemma QuietStep(s: State, e: Event, t: State, key: string)
    requires Inv(s) && Step(s, e, t) && e != Called(key)
    ensures Rank(t, key) + (if e.key == key then 1 else 0) == Rank(s, key)
  {
    StepKeepsInv(s, e, t);
    if e.key != key {
      OtherKey(s, e, t, key);
    } else {
      ReadyAt(s, key, e.worker);
      BusyAt(s, key, e.worker);
      if e.worker in t.workers {
        ReadyAt(t, key, e.worker);
        BusyAt(t, key, e.worker);
      }
    }
  }

  /** While nobody calls for a key, each of its steps brings its worker one step closer to its end,
      and it starts exactly the bodies owed: at most one besides the one running or about to run. */
  lemma {:induction false} QuietSegment(states: seq<State>, events: seq<Event>, key: string)
    requires Run(states, events) && Inv(states[0]) && Quiet(events, key)
    ensures CountOwn(events, key) + Rank(states[|events|], key) == Rank(states[0], key)
    ensures CountStarts(events, key) + Owed(states[|events|], key) == Owed(states[0], key)
    ensures Owed(states[0], key) <= 1 + if ReadyFor(states[0], key) then 1 else 0
  {
    if events != [] {
      Prefix(states, events);
      assert Quiet(events[..|events| - 1], key);
      QuietSegment(states[..|events|], events[..|events| - 1], key);
      RunKeepsInv(states, events, |events| - 1);
      assert events[|events| - 1] != Called(key);
      OwedStep(states[|events| - 1], events[|events| - 1], states[|events|], key);
      QuietStep(states[|events| - 1], events[|events| - 1], states[|events|], key);
    }
  }

  /** A running key can always take a step of its own, so in a quiet run its worker ends; it is
      idle exactly when no step is left, and then neither table mentions it. */
  lemma RunningProgresses(s: State, key: string) returns (e: Event, t: State)
    requires Inv(s) && On(s.flags.running, key)
    ensures Step(s, e, t) && e.key == key && !e.Called?
    ensures Rank(s, key) > 0
  {
    var w :| w in s.workers && s.workers[w].key == key;
    match s.workers[w].phase {
      case Ready =>
        e, t := Started(key, w), s.(workers := s.workers[w := Worker(key, Busy)]);
      case Busy =>
        e, t := Finished(key, w), s.(workers := s.workers[w := Worker(key, Done)]);
      case Done =>
        e := Checked(key, w);
        t := State(Settled(s.flags, key),
                   if On(s.flags.pending, key) then s.workers[w := Worker(key, Ready)] else s.workers - {w}, s.spawned);
    }
  }

  /** A key with no step left is in neither table: the worker leaves nothing behind. */
  lemma IdleLeavesNothing(states: seq<State>, events: seq<Event>, key: string)
    requires FullRun(states, events)
    ensures var s := states[|events|];
      Rank(s, key) == 0 <==> key !in s.flags.running && key !in s.flags.pending
  {
    RunKeepsInv(states, events, |events|);
  }

  // --- The server's own form ---

  class Scheduler {
    var running: map<string, bool>
    var pending: map<string, bool>

    function Tables(): Flags
      reads this
    {
      Flags(running, pending)
    }

    constructor ()
      ensures Tables() == EMPTY.flags
    {
      running, pending := map[], map[];
    }

    // True when the caller has to spawn a worker.
    method Schedule(id: string) returns (spawn: bool)
      modifies this
      ensures spawn == Spawns(old(Tables()), TrimSpace(id))
      ensures Tables() == Scheduled(old(Tables()), TrimSpace(id))
    {
      var key := TrimSpace(id);
      if key == "" { return false; }
      if key in running && running[key] {
        pending := pending[key := true];
        return false;
      }
      running := running[key := true];
      spawn := true;
    }

    // True when the worker has to run its body again.
    method Check(key: string) returns (again: bool)
      modifies this
      ensures again == On(old(pending), key)
      ensures Tables() == Settled(old(Tables()), key)
    {
      again := key in pending && pending[key];
      if again {
        pending := pending[key := false];
      } else {
        running := running - {key};
        pending := pending - {key};
      }
    }

    // The worker of `key`, with `arrivals[i]` calls for it landing while body `i` runs.
    method Work(key: string, arrivals: seq<nat>) returns (bodies: nat)
      requires key != "" && TrimSpace(key) == key && On(running, key)
      modifies this
      ensures bodies == Bodies(On(old(pending), key), arrivals)
      ensures running == old(running) - {key} && pending == old(pending) - {key}
    {
      bodies := 0;
      var again := true;
      while again
        invariant again ==> On(running, key)
        invariant bodies + (if again then Bodies(On(pending, key), Later(arrivals, bodies)) else 0) == Bodies(On(old(pending), key), arrivals)
        invariant running - {key} == old(running) - {key} && pending - {key} == old(pending) - {key}
        invariant !again ==> running == running - {key} && pending == pending - {key}
        decreases again, |Later(arrivals, bodies)|, On(pending, key)
      {
        var calls := if bodies < |arrivals| then arrivals[bodies] else 0;
        ghost var was := On(pending, key);
        for i := 0 to calls
          invariant On(running, key) && On(pending, key) == (was || i > 0)
          invariant running - {key} == old(running) - {key} && pending - {key} == old(pending) - {key}
        {
          var spawn := Schedule(key);
        }
        assert Later(arrivals, bodies + 1) == if bodies < |arrivals| then Later(arrivals, bodies)[1..] else [];
        bodies := bodies + 1;
        again := Check(key);
      }
    }
  }

  function Later(arrivals: seq<nat>, n: nat): seq<nat> {
    if n < |arrivals| then arrivals[n..] else []
  }

  // How many bodies a worker runs that starts with the pending flag `flag`.
  function Bodies(flag: bool, arrivals: seq<nat>): (n: nat)
    ensures n >= 1
    decreases |arrivals|, flag
  {
    var called := arrivals != [] && arrivals[0] > 0;
    var rest := if arrivals == [] then [] else arrivals[1..];
    if flag || called then 1 + Bodies(false, rest) else 1
  }

  /** Each body during which calls land is followed by another one, and the last one saw no call;
      apart from a flag set beforehand, nothing else makes a worker run again. */
  lemma {:induction false} ArrivalsAnswered(flag: bool, arrivals: seq<nat>, i: nat)
    requires i < Bodies(flag, arrivals)
    ensures (i < |arrivals| && arrivals[i] > 0) || (i == 0 && flag) <==> i + 1 < Bodies(flag, arrivals)
    decreases |arrivals|, i
  {
    if i > 0 {
      var rest := if arrivals == [] then [] else arrivals[1..];
      ArrivalsAnswered(false, rest, i - 1);
    }
  }

  // --- The body's attempts ---

  const BACKOFFS_MS: seq<nat> := [0, 1200, 3000]

  // At most three attempts, the first at once, stopping at the first that succeeds.
  method RunWithRetry(succeeds: seq<bool>) returns (attempts: nat, waited: nat)
    requires |succeeds| == 3
    ensures 1 <= attempts <= 3 && forall i | 0 <= i < attempts - 1 :: !succeeds[i]
    ensures succeeds[attempts - 1] || attempts == 3
    ensures waited == [0, 1200, 4200][attempts - 1]
  {
    attempts, waited := 0, 0;
    for i := 0 to 3
      invariant attempts == i && forall j | 0 <= j < i :: !succeeds[j]
      invariant waited == [0, 0, 1200, 4200][i]
    {
      waited := waited + BACKOFFS_MS[i];
      attempts := i + 1;
      if succeeds[i] { return; }
    }
  }

  // --- Channel keys ---

  function ChannelKey(device: string, channel: string): string {
    var d, c := TrimSpace(device), TrimSpace(channel);
    d + "/" + if c == "" then d else c
  }

  /** White space around the ids does not matter, and a blank channel is the device's own. */
  lemma KeysTrimmed(device: string, channel: string)
    ensures ChannelKey(device, channel) == ChannelKey(TrimSpace(device), TrimSpace(channel))
    ensures TrimSpace(channel) == "" ==> ChannelKey(device, channel) == ChannelKey(device, device)
    ensures Named(device) && Named(channel) ==> ChannelKey(device, channel) == device + "/" + channel
  {
    TrimSpaceTrims(device);
    TrimSpaceTrims(channel);
    TrimSpaceTrims(TrimSpace(device));
    TrimSpaceTrims(TrimSpace(channel));
  }

  predicate NoSlash(s: string) {
    forall i | 0 <= i < |s| :: s[i] != '/'
  }

  // Non-empty with nothing to trim.
  predicate Named(s: string) {
    s != "" && TrimSpace(s) == s
  }

  // `b` goes on from `a` with a slash and something that does not start with white space.
  predicate Extends(a: string, b: string) {
    |a| < |b| && b[..|a|] == a && b[|a|] == '/' && LeadingSpace(b[|a| + 1..]) == 0
  }

  // Some channel of one device has the key of some channel of the other.
  ghost predicate Clash(d1: string, d2: string) {
    exists c1, c2 :: ChannelKey(d1, c1) == ChannelKey(d2, c2)
  }

  lemma KeyForm(device: string, channel: string) returns (c: string)
    requires Named(device)
    ensures ChannelKey(device, channel) == device + "/" + c && LeadingSpace(c) == 0
    ensures Named(channel) ==> c == channel
  {
    TrimSpaceTrims(device);
    TrimSpaceTrims(channel);
    c := if TrimSpace(channel) == "" then device else TrimSpace(channel);
  }

  lemma SpaceStays(s: string, more: string)
    ensures LeadingSpace(s) > 0 ==> LeadingSpace(s + more) > 0
  {}

  // Equal keys of two devices: the shorter id goes on to the longer one.
  lemma EqualKeysExtend(d1: string, c1: string, d2: string, c2: string)
    requires d1 + "/" + c1 == d2 + "/" + c2 && LeadingSpace(c1) == 0 && |d1| < |d2|
    ensures Extends(d1, d2)
  {
    var key, rest := d1 + "/" + c1, d2[|d1| + 1..];
    assert key[..|d1|] == d1 && key[|d1|] == '/' && key[|d1| + 1..] == c1;
    assert d2[..|d1|] == (d2 + "/" + c2)[..|d1|] && d2[|d1|] == (d2 + "/" + c2)[|d1|];
    assert (d2 + "/" + c2)[|d1| + 1..] == rest + ("/" + c2);
    SpaceStays(rest, "/" + c2);
  }

  lemma SameLengthKeys(d1: string, c1: string, d2: string, c2: string)
    requires d1 + "/" + c1 == d2 + "/" + c2 && |d1| == |d2|
    ensures d1 == d2 && c1 == c2
  {
    var key := d1 + "/" + c1;
    assert key[..|d1|] == d1 && key[|d1| + 1..] == c1;
    assert (d2 + "/" + c2)[..|d2|] == d2 && (d2 + "/" + c2)[|d2| + 1..] == c2;
  }

  /** A device id with an inner slash shares its keys with the channels of a shorter id. */
  lemma SlashCollides(device: string, channel: string, i: nat)
    requires i < |device| && device[i] == '/' && Named(device) && Named(channel)
    requires Named(device[..i]) && Named(device[i + 1..] + "/" + channel)
    ensures ChannelKey(device[..i], device[i + 1..] + "/" + channel) == ChannelKey(device, channel) && device[..i] != device
  {}

  lemma ExtensionClashes(d1: string, d2: string)
    requires Named(d1) && Named(d2) && Extends(d1, d2)
    ensures Clash(d1, d2) && Clash(d2, d1)
  {
    var c1 := d2[|d1| + 1..] + "/" + "0";
    assert Trimmed(c1) && Trimmed("0");
    TrimSpaceTrims(c1);
    TrimSpaceTrims("0");
    SlashCollides(d2, "0", |d1|);
  }

  /** Two different devices have a common channel key if and only if one id is the other one followed
      by a slash and a rest that does not start with white space. */
  lemma KeysClashIff(d1: string, d2: string)
    requires Named(d1) && Named(d2) && d1 != d2
    ensures Clash(d1, d2) <==> Extends(d1, d2) || Extends(d2, d1)
  {
    if Clash(d1, d2) {
      var a, b :| ChannelKey(d1, a) == ChannelKey(d2, b);
      var c1 := KeyForm(d1, a);
      var c2 := KeyForm(d2, b);
      if |d1| < |d2| {
        EqualKeysExtend(d1, c1, d2, c2);
      } else if |d2| < |d1| {
        EqualKeysExtend(d2, c2, d1, c1);
      } else {
        SameLengthKeys(d1, c1, d2, c2);
      }
    }
    if Extends(d1, d2) { ExtensionClashes(d1, d2); }
    if Extends(d2, d1) { ExtensionClashes(d2, d1); }
  }

  /** Between devices neither of which extends the other a key stands for one device and channel only. */
  lemma UnextendedKeys(d1: string, c1: string, d2: string, c2: string)
    requires Named(d1) && Named(c1) && Named(d2) && Named(c2) && !Extends(d1, d2) && !Extends(d2, d1)
    ensures ChannelKey(d1, c1) == ChannelKey(d2, c2) <==> d1 == d2 && c1 == c2
  {
    if d1 != d2 {
      KeysClashIff(d1, d2);
    } else if ChannelKey(d1, c1) == ChannelKey(d2, c2) {
      var x := KeyForm(d1, c1);
      var y := KeyForm(d2, c2);
      SameLengthKeys(d1, x, d2, y);
    }
  }

  /** In particular for ids without a slash, */
  lemma KeysAreDistinct(d1: string, c1: string, d2: string, c2: string)
    requires Named(d1) && Named(c1) && Named(d2) && Named(c2) && NoSlash(d1) && NoSlash(d2)
    ensures ChannelKey(d1, c1) == ChannelKey(d2, c2) <==> d1 == d2 && c1 == c2
  {
    UnextendedKeys(d1, c1, d2, c2);
  }

  // What registration accepts as a device id.
  predicate IsRegisteredId(s: string) { |s| == 20 && AllDigits(s) }

  /** and for registered ones, which all have the same length. */
  lemma RegisteredKeysAreDistinct(d1: string, c1: string, d2: string, c2: string)
    requires IsRegisteredId(d1) && IsRegisteredId(d2) && Named(c1) && Named(c2)
    ensures ChannelKey(d1, c1) == ChannelKey(d2, c2) <==> d1 == d2 && c1 == c2
  {
    assert IsDigit(d1[0]) && IsDigit(d1[19]) && IsDigit(d2[0]) && IsDigit(d2[19]);
    TrimSpaceTrims(d1);
    TrimSpaceTrims(d2);
    UnextendedKeys(d1, c1, d2, c2);
  }

  /** One pair of ids that shares a key, and one with slashes that does not. */
  lemma ClashExample()
    ensures ChannelKey("cam", "1/2") == ChannelKey("cam/1", "2")
    ensures !Clash("a/b", "c/d")
  {
    TrimSpaceTrims("cam");
    TrimSpaceTrims("1/2");
    TrimSpaceTrims("cam/1");
    TrimSpaceTrims("2");
    TrimSpaceTrims("a/b");
    TrimSpaceTrims("c/d");
    assert "cam" + "/" + "1/2" == "cam/1" + "/" + "2";
    KeysClashIff("a/b", "c/d");
  }
}
