/** The three database tables behind alarm-clip sessions, and the effect of each
    database statement on them: one function per transaction or single-row update.
    Times are integer nanoseconds, as in Go's time.Duration. */
module AlarmClipTables {
  import opened Wrappers

  const SECOND := 1_000_000_000
  const NO_FILES := "[]"

  datatype Status = Recording | Closing | Closed | ClosedEmpty | Failed

  datatype Session = Session(
    source: string, status: Status, anchorEvent: string, pre: int, post: int,
    startedAt: int, lastAlarmAt: int, expectedEndAt: int, hardDeadlineAt: int,
    clipPath: string, clipFiles: string)

  // The clip columns of an alarm event; `session` is "" until the first attachment.
  datatype Event = Event(session: string, ready: bool, clipPath: string, clipFiles: string)

  // One row of the session/event table, whose unique index makes it a set of pairs.
  datatype Relation = Relation(session: string, event: string)

  datatype Tables = Tables(
    sessions: map<string, Session>, relations: set<Relation>, events: map<string, Event>)

  datatype Config = Config(defaultPre: int, defaultPost: int, maxSession: int, settle: int)

  // What the clamps around the configuration file guarantee.
  predicate ValidConfig(cfg: Config) {
    cfg.defaultPre > 0 && cfg.defaultPost > 0 && 30 <= cfg.maxSession <= 1800 && 1 <= cfg.settle <= 10
  }

  // A request to start or extend; `now` is read before the transaction begins.
  datatype Alarm = Alarm(
    source: string, now: int, occurredAt: int, pre: int, post: int, events: seq<string>)

  function Clamp(value: int, low: int, high: int): int {
    if value < low then low else if value > high then high else value
  }

  function Min(a: int, b: int): int { if b < a then b else a }

  function Max(a: int, b: int): int { if a < b then b else a }

  function PreSeconds(cfg: Config, alarm: Alarm): int {
    Clamp(if alarm.pre <= 0 then cfg.defaultPre else alarm.pre, 1, 600)
  }

  function PostSeconds(cfg: Config, alarm: Alarm): int {
    Clamp(if alarm.post <= 0 then cfg.defaultPost else alarm.post, 1, 600)
  }

  predicate Terminal(status: Status) {
    status.Closed? || status.ClosedEmpty? || status.Failed?
  }

  predicate IsRecordingOf(t: Tables, source: string, id: string) {
    id in t.sessions && t.sessions[id].source == source && t.sessions[id].status.Recording?
  }

  // The row the query "recording sessions of this source, latest start first" may return.
  ghost predicate IsActive(t: Tables, source: string, found: Option<string>) {
    match found
    case None => forall id :: !IsRecordingOf(t, source, id)
    case Some(best) =>
      && IsRecordingOf(t, source, best)
      && forall id :: IsRecordingOf(t, source, id) ==> t.sessions[id].startedAt <= t.sessions[best].startedAt
  }

  // The session an alarm ends up in: the active one unless its hard deadline has passed.
  function Target(t: Tables, alarm: Alarm, found: Option<string>, freshId: string): string
    requires found.Some? ==> found.value in t.sessions
  {
    if found.Some? && alarm.now < t.sessions[found.value].hardDeadlineAt then found.value else freshId
  }

  function OpenedRow(cfg: Config, alarm: Alarm): Session
    requires alarm.events != []
  {
    var deadline := alarm.now + cfg.maxSession * SECOND;
    Session(alarm.source, Recording, alarm.events[0], PreSeconds(cfg, alarm), PostSeconds(cfg, alarm),
            alarm.now, alarm.occurredAt, Min(alarm.now + PostSeconds(cfg, alarm) * SECOND, deadline), deadline,
            "", NO_FILES)
  }

  function ExtendedRow(cfg: Config, alarm: Alarm, row: Session): Session {
    var wanted := Min(alarm.now + PostSeconds(cfg, alarm) * SECOND, row.hardDeadlineAt);
    row.(lastAlarmAt := alarm.occurredAt, expectedEndAt := Max(wanted, row.expectedEndAt))
  }

  // Event rows named in `ids` get these clip columns; ids without a row are skipped.
  function SetClips(events: map<string, Event>, ids: set<string>, clip: Event): map<string, Event> {
    map e | e in events :: if e in ids then clip else events[e]
  }

  function Ids(events: seq<string>): set<string> {
    set e | e in events
  }

  // The start-or-extend transaction.
  function StartOrExtend(t: Tables, cfg: Config, alarm: Alarm, found: Option<string>, freshId: string): Tables
    requires found.Some? ==> found.value in t.sessions
    requires alarm.events != []
  {
    var id := Target(t, alarm, found, freshId);
    var row := if id in t.sessions && found == Some(id) then ExtendedRow(cfg, alarm, t.sessions[id])
               else OpenedRow(cfg, alarm);
    Tables(
      t.sessions[id := row],
      t.relations + set e | e in alarm.events :: Relation(id, e),
      SetClips(t.events, Ids(alarm.events), Event(id, false, "", NO_FILES)))
  }

  /** An alarm attaches all its events to the session it joins and nothing else: each gets a relation,
      and its row, when there is one, names the session and is not ready yet. */
  lemma AllEventsAttached(t: Tables, cfg: Config, alarm: Alarm, found: Option<string>, freshId: string)
    requires found.Some? ==> found.value in t.sessions
    requires alarm.events != []
    ensures var id, after := Target(t, alarm, found, freshId), StartOrExtend(t, cfg, alarm, found, freshId);
      && (forall r :: r in after.relations <==> r in t.relations || (r.session == id && r.event in alarm.events))
      && after.events.Keys == t.events.Keys
      && (forall e | e in t.events && e in alarm.events :: after.events[e] == Event(id, false, "", "[]"))
      && (forall e | e in t.events && e !in alarm.events :: after.events[e] == t.events[e])
  {}

  /** An alarm's own lead and trail are kept when they are between 1 and 600 seconds and drawn to 600 when
      longer; without one the configured default is taken, drawn to 600 likewise. */
  lemma SecondsMean(cfg: Config, alarm: Alarm)
    requires ValidConfig(cfg)
    ensures 1 <= alarm.pre <= 600 ==> PreSeconds(cfg, alarm) == alarm.pre
    ensures 1 <= alarm.post <= 600 ==> PostSeconds(cfg, alarm) == alarm.post
    ensures alarm.pre > 600 || (alarm.pre <= 0 && cfg.defaultPre > 600) ==> PreSeconds(cfg, alarm) == 600
    ensures alarm.post > 600 || (alarm.post <= 0 && cfg.defaultPost > 600) ==> PostSeconds(cfg, alarm) == 600
    ensures alarm.pre <= 0 && cfg.defaultPre <= 600 ==> PreSeconds(cfg, alarm) == cfg.defaultPre
    ensures alarm.post <= 0 && cfg.defaultPost <= 600 ==> PostSeconds(cfg, alarm) == cfg.defaultPost
  {}

  /** The session it joins: the active one with a later end and this alarm's time, when the alarm comes
      before its hard deadline, and else a new one that starts now, with the first event as its anchor. */
  lemma SessionJoined(t: Tables, cfg: Config, alarm: Alarm, found: Option<string>, freshId: string)
    requires found.Some? ==> found.value in t.sessions
    requires alarm.events != [] && freshId !in t.sessions && ValidConfig(cfg)
    ensures var id, after := Target(t, alarm, found, freshId), StartOrExtend(t, cfg, alarm, found, freshId);
      && after.sessions.Keys == t.sessions.Keys + {id} && id in after.sessions
      && (forall k | k in t.sessions && k != id :: after.sessions[k] == t.sessions[k])
      && after.sessions[id].lastAlarmAt == alarm.occurredAt
      && if found.Some? && alarm.now < t.sessions[found.value].hardDeadlineAt then
           && id == found.value
           && after.sessions[id] == t.sessions[id].(lastAlarmAt := alarm.occurredAt, expectedEndAt := after.sessions[id].expectedEndAt)
         else
           && id == freshId
           && var row := after.sessions[id];
           && row.source == alarm.source && row.status.Recording? && row.anchorEvent == alarm.events[0]
           && row.startedAt == alarm.now && row.clipPath == "" && row.clipFiles == "[]"
           && row.pre == PreSeconds(cfg, alarm) && row.post == PostSeconds(cfg, alarm)
  {}

  function MarkClosing(t: Tables, id: string): Tables
    requires id in t.sessions
  {
    t.(sessions := t.sessions[id := t.sessions[id].(status := Closing)])
  }

  function EventsOf(t: Tables, id: string): set<string> {
    set r | r in t.relations && r.session == id :: r.event
  }

  function WriteEvents(t: Tables, id: string, events: set<string>, path: string, files: string): Tables {
    t.(events := SetClips(t.events, events, Event(id, true, path, files)))
  }

  function WriteSession(t: Tables, id: string, status: Status, path: string, files: string): Tables
    requires id in t.sessions
  {
    t.(sessions := t.sessions[id := t.sessions[id].(status := status, clipPath := path, clipFiles := files)])
  }
}
