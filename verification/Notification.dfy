/** Alarm notification with a suppression cycle: an alarm event is always stored, and it is notified
    unless a runtime event of the same task, device and algorithm was notified less than the cycle
    before. Handlers run one at a time; times are in milliseconds, and no order of theirs is assumed. */
module Notification {
  import opened Wrappers
  import opened Text

  const MAX_CYCLE_SECONDS := 86400

  datatype Key = Key(task: string, device: string, algorithm: string)

  datatype Event = Event(key: Key, runtime: bool, created: int, notified: Option<int>)

  // One alarm reaching the handler, with the outcome of the latest-notification query and of the insert.
  datatype Alarm = Alarm(key: Key, cycle: int, now: int, queryOk: bool, createOk: bool)

  function CycleOf(raw: int, default: int): int {
    if raw < 0 || raw > MAX_CYCLE_SECONDS then default else raw
  }

  predicate Complete(key: Key) {
    TrimSpace(key.task) != "" && TrimSpace(key.device) != "" && TrimSpace(key.algorithm) != ""
  }

  predicate Notified(e: Event, key: Key) {
    e.key == key && e.runtime && e.notified.Some?
  }

  // The latest notification of a key: SELECT ... ORDER BY notified_at DESC LIMIT 1.
  function Latest(events: seq<Event>, key: Key): Option<int> {
    if events == [] then None
    else
      var last, rest := events[|events| - 1], Latest(events[..|events| - 1], key);
      if !Notified(last, key) then rest
      else if rest.Some? && rest.value > last.notified.value then rest
      else last.notified
  }

  predicate ShouldBroadcast(events: seq<Event>, key: Key, cycle: int, now: int) {
    var latest := Latest(events, key);
    cycle <= 0 || !Complete(key) || latest.None? || now - latest.value >= cycle * 1000
  }

  function Handled(events: seq<Event>, a: Alarm, default: int): seq<Event> {
    var broadcast := !a.queryOk || ShouldBroadcast(events, a.key, CycleOf(a.cycle, default), a.now);
    if a.createOk then events + [Event(a.key, true, a.now, if broadcast then Some(a.now) else None)] else events
  }

  function HandledAll(base: seq<Event>, alarms: seq<Alarm>, default: int): seq<Event> {
    if alarms == [] then base
    else Handled(HandledAll(base, alarms[..|alarms| - 1], default), alarms[|alarms| - 1], default)
  }

  // --- What the suppression promises for one key ---

  // A notified event of the key, so recent at time `now` that the cycle still covers it.
  ghost predicate RecentlyNotified(events: seq<Event>, key: Key, now: int, span: int) {
    exists i :: 0 <= i < |events| && Notified(events[i], key) && now - events[i].notified.value < span
  }

  // Notified events lie at least a span apart, in the order of the table.
  predicate Spaced(events: seq<Event>, key: Key, span: int) {
    forall i, j | 0 <= i < j < |events| && Notified(events[i], key) && Notified(events[j], key) ::
      events[j].notified.value - events[i].notified.value >= span
  }

  // An event is suppressed exactly when one was notified less than a span before it.
  ghost predicate Justified(events: seq<Event>, key: Key, span: int) {
    forall j | 0 <= j < |events| && events[j].key == key && events[j].runtime ::
      && (events[j].notified.Some? ==> events[j].notified.value == events[j].created)
      && (events[j].notified.None? <==> RecentlyNotified(events[..j], key, events[j].created, span))
  }

  lemma {:induction false} LatestCovers(events: seq<Event>, key: Key, now: int, span: int)
    ensures Latest(events, key).Some? ==>
      (now - Latest(events, key).value < span <==> RecentlyNotified(events, key, now, span))
    ensures Latest(events, key).None? ==> forall i | 0 <= i < |events| :: !Notified(events[i], key)
  {
    if events != [] {
      var init, last := events[..|events| - 1], events[|events| - 1];
      LatestCovers(init, key, now, span);
      assert events == init + [last];
      if RecentlyNotified(init, key, now, span) {
        var i :| 0 <= i < |init| && Notified(init[i], key) && now - init[i].notified.value < span;
        assert events[i] == init[i];
      }
    }
  }

  /** One alarm is notified if and only if its cycle is off, its key incomplete, or no event of the
      key was notified less than the cycle before. */
  lemma BroadcastIff(events: seq<Event>, key: Key, cycle: int, now: int)
    ensures ShouldBroadcast(events, key, cycle, now)
      <==> cycle <= 0 || !Complete(key) || !RecentlyNotified(events, key, now, cycle * 1000)
  {
    LatestCovers(events, key, now, cycle * 1000);
  }

  // The cycle an alarm goes by: its own when it is at most a day, else the default.
  predicate GoesBy(a: Alarm, default: int, cycle: int) {
    (0 <= a.cycle <= 24 * 60 * 60 ==> cycle == a.cycle) && (!(0 <= a.cycle <= 24 * 60 * 60) ==> cycle == default)
  }

  /** An alarm that can be stored becomes one runtime event of its key, notified now exactly when the query
      fails, the cycle is off, an id is blank, or no event of the key was notified within the cycle. */
  lemma OneAlarm(events: seq<Event>, a: Alarm, default: int, cycle: int)
    requires GoesBy(a, default, cycle)
    ensures !a.createOk ==> Handled(events, a, default) == events
    ensures var blank, recent := TrimSpace(a.key.task) == "" || TrimSpace(a.key.device) == "" || TrimSpace(a.key.algorithm) == "",
        RecentlyNotified(events, a.key, a.now, cycle * 1000);
      a.createOk ==>
        Handled(events, a, default) ==
        events + [Event(a.key, true, a.now, if !a.queryOk || cycle <= 0 || blank || !recent then Some(a.now) else None)]
  {
    hide Latest;
    BroadcastIff(events, a.key, CycleOf(a.cycle, default), a.now);
  }

  // Every alarm of the key has this cycle, and the query never failed for it.
  predicate Regular(alarms: seq<Alarm>, key: Key, cycle: int, default: int) {
    forall i | 0 <= i < |alarms| && alarms[i].key == key :: CycleOf(alarms[i].cycle, default) == cycle && alarms[i].queryOk
  }

  lemma HandledKeeps(events: seq<Event>, a: Alarm, key: Key, cycle: int, default: int)
    requires Complete(key) && cycle > 0 && Spaced(events, key, cycle * 1000) && Justified(events, key, cycle * 1000)
    requires a.key == key ==> CycleOf(a.cycle, default) == cycle && a.queryOk
    ensures Spaced(Handled(events, a, default), key, cycle * 1000) && Justified(Handled(events, a, default), key, cycle * 1000)
  {
    hide Latest, Complete, TrimSpace;
    BroadcastIff(events, a.key, CycleOf(a.cycle, default), a.now);
    var after := Handled(events, a, default);
    if a.createOk {
      assert after[..|events|] == events;
      forall j | 0 <= j < |events| ensures after[j] == events[j] && after[..j] == events[..j] {}
    }
  }

  /** Over every run of alarms in which the key's queries succeed, notified events are at least a
      cycle apart, and an event is suppressed exactly when a notified one lies less than a cycle before it. */
  lemma {:induction false} NotificationsSpaced(alarms: seq<Alarm>, key: Key, cycle: int, default: int)
    requires Complete(key) && cycle > 0 && Regular(alarms, key, cycle, default)
    ensures var events := HandledAll([], alarms, default);
      Spaced(events, key, cycle * 1000) && Justified(events, key, cycle * 1000)
  {
    if alarms != [] {
      var init := alarms[..|alarms| - 1];
      assert Regular(init, key, cycle, default) by {
        assert forall i | 0 <= i < |init| :: init[i] == alarms[i];
      }
      NotificationsSpaced(init, key, cycle, default);
      HandledKeeps(HandledAll([], init, default), alarms[|alarms| - 1], key, cycle, default);
    }
  }

  // --- Runs with failing queries ---

  // A stored alarm of the key whose query failed although the cycle of a notified event still runs.
  ghost predicate Breaks(events: seq<Event>, a: Alarm, key: Key, span: int) {
    a.key == key && a.createOk && !a.queryOk && RecentlyNotified(events, key, a.now, span)
  }

  lemma SpacedStepIff(events: seq<Event>, a: Alarm, key: Key, cycle: int, default: int)
    requires Complete(key) && cycle > 0 && (a.key == key ==> CycleOf(a.cycle, default) == cycle)
    ensures Spaced(Handled(events, a, default), key, cycle * 1000) <==>
      Spaced(events, key, cycle * 1000) && !Breaks(events, a, key, cycle * 1000)
  {
    hide Latest, Complete, TrimSpace;
    BroadcastIff(events, a.key, CycleOf(a.cycle, default), a.now);
    var after := Handled(events, a, default);
    if a.createOk {
      forall j | 0 <= j < |events| ensures after[j] == events[j] {}
      if Breaks(events, a, key, cycle * 1000) {
        var i :| 0 <= i < |events| && Notified(events[i], key) && a.now - events[i].notified.value < cycle * 1000;
        assert Notified(after[i], key) && Notified(after[|events|], key);
      }
    }
  }

  // Alarm `i` of a run breaks the spacing.
  ghost predicate BreaksAt(alarms: seq<Alarm>, i: nat, key: Key, span: int, default: int)
    requires i < |alarms|
  {
    Breaks(HandledAll([], alarms[..i], default), alarms[i], key, span)
  }

  /** Over every run of alarms, failed queries included, the notified events of a key are spaced by its
      cycle if and only if no alarm of the key with a failed query was stored while the cycle of a
      notified one was still running. */
  lemma {:induction false} SpacedIff(alarms: seq<Alarm>, key: Key, cycle: int, default: int)
    requires Complete(key) && cycle > 0
    requires forall i | 0 <= i < |alarms| && alarms[i].key == key :: CycleOf(alarms[i].cycle, default) == cycle
    ensures Spaced(HandledAll([], alarms, default), key, cycle * 1000) <==>
      forall i | 0 <= i < |alarms| :: !BreaksAt(alarms, i, key, cycle * 1000, default)
  {
    hide Spaced, Breaks, Handled, Complete, CycleOf;
    var span := cycle * 1000;
    if alarms == [] {
      NothingIsSpaced(key, span);
    } else {
      var n := |alarms| - 1;
      var init := alarms[..n];
      forall i: nat | i < n ensures init[i] == alarms[i] && BreaksAt(init, i, key, span, default) == BreaksAt(alarms, i, key, span, default) {
        assert init[..i] == alarms[..i];
      }
      SpacedIff(init, key, cycle, default);
      SpacedStepIff(HandledAll([], init, default), alarms[n], key, cycle, default);
      assert BreaksAt(alarms, n, key, span, default) == Breaks(HandledAll([], init, default), alarms[n], key, span);
    }
  }

  lemma NothingIsSpaced(key: Key, span: int)
    ensures Spaced([], key, span)
  {}

  // --- How many notifications a window holds ---

  predicate InWindow(e: Event, key: Key, from: int, to: int) {
    Notified(e, key) && from <= e.notified.value <= to
  }

  function CountWindow(events: seq<Event>, key: Key, from: int, to: int): nat {
    if events == [] then 0
    else CountWindow(events[..|events| - 1], key, from, to) + if InWindow(events[|events| - 1], key, from, to) then 1 else 0
  }

  // The last of n notifications in a window is at least n - 1 spans after its start.
  lemma {:induction false} LastInWindow(events: seq<Event>, key: Key, from: int, to: int, span: int) returns (i: nat)
    requires Spaced(events, key, span) && span > 0 && CountWindow(events, key, from, to) > 0
    ensures i < |events| && InWindow(events[i], key, from, to)
    ensures events[i].notified.value >= from + (CountWindow(events, key, from, to) - 1) * span
  {
    var init, last := events[..|events| - 1], events[|events| - 1];
    assert Spaced(init, key, span) by { assert forall k | 0 <= k < |init| :: init[k] == events[k]; }
    var n := CountWindow(init, key, from, to);
    if n == 0 {
      i := |events| - 1;
    } else {
      i := LastInWindow(init, key, from, to, span);
      assert events[i] == init[i];
      if InWindow(last, key, from, to) {
        assert last.notified.value - events[i].notified.value >= span;
        assert n * span == (n - 1) * span + span;
        i := |events| - 1;
      }
    }
  }

  /** Any window of a given length holds at most one notification more than whole spans fit into it. */
  lemma WindowBound(events: seq<Event>, key: Key, from: int, length: nat, span: int)
    requires Spaced(events, key, span) && span > 0
    ensures CountWindow(events, key, from, from + length) <= length / span + 1
  {
    var n := CountWindow(events, key, from, from + length);
    if n > 0 {
      var i := LastInWindow(events, key, from, from + length, span);
      assert (n - 1) * span <= length;
      DivBound(n - 1, length, span);
    }
  }

  lemma DivBound(n: nat, length: nat, span: int)
    requires span > 0 && n * span <= length
    ensures n <= length / span
  {
    var q, r := length / span, length % span;
    assert length == span * q + r && r < span;
    if n > q { MulAtLeast(q + 1, n, span); }
  }

  lemma MulAtLeast(a: int, b: int, c: int)
    requires c > 0 && a <= b
    ensures a * c <= b * c
  {}

  /** A failed query falls back to notifying, so it breaks the spacing. */
  lemma FailedQueryExample() returns (alarms: seq<Alarm>, key: Key)
    ensures Complete(key) && CycleOf(60, 60) == 60 && forall a | a in alarms :: a.key == key && a.cycle == 60 && a.createOk
    ensures !Spaced(HandledAll([], alarms, 60), key, 60 * 1000)
  {
    key := Key("t", "d", "a");
    alarms := [Alarm(key, 60, 0, true, true), Alarm(key, 60, 1, false, true)];
    TrimSpaceTrims("t");
    TrimSpaceTrims("d");
    TrimSpaceTrims("a");
    assert alarms[..1] == [alarms[0]] && [alarms[0]][..0] == [];
    assert HandledAll([], [alarms[0]], 60) == [Event(key, true, 0, Some(0))];
    var events := HandledAll([], alarms, 60);
    assert events == [Event(key, true, 0, Some(0)), Event(key, true, 1, Some(1))];
    assert Notified(events[0], key) && Notified(events[1], key);
  }

  // --- The handler's table ---

  class EventTable {
    var events: seq<Event>
    const default: int

    constructor (default: int)
      ensures events == [] && this.default == default
    {
      events := [];
      this.default := default;
    }

    // Stores the event of one alarm; true when it is broadcast to the clients.
    method HandleAlarm(a: Alarm) returns (broadcast: bool)
      modifies this
      ensures events == Handled(old(events), a, default)
      ensures broadcast <==> |events| > |old(events)| && events[|events| - 1].notified.Some?
    {
      var cycle := CycleOf(a.cycle, default);
      var should := true;
      if a.queryOk && cycle > 0 && Complete(a.key) {
        var latest := Latest(events, a.key);
        if latest.Some? && a.now - latest.value < cycle * 1000 { should := false; }
      }
      var notified := if should then Some(a.now) else None;
      if !a.createOk { return false; }
      events := events + [Event(a.key, true, a.now, notified)];
      broadcast := should;
    }
  }
}
