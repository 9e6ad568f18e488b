/** What one frame yields: the small model's alarms, the set of algorithms the large model is asked
    about, and the alarms read out of its answer. The detector and the answer are parameters. */
module FrameAnalysis {
  import opened Wrappers
  import opened Text
  import opened AnalysisConfig

  // The detector run on the frame with a confidence threshold and a label filter.
  type Detector = (real, set<string>) -> seq<Detection>

  // --- The small model ---

  predicate Matches(cfg: Config, d: Detection) {
    && d.confidence >= cfg.threshold && TrimSpace(d.name) != ""
    && (LowerAll(cfg.labels) == {} || Lower(TrimSpace(d.name)) in LowerAll(cfg.labels))
  }

  function Matched(cfg: Config, dets: seq<Detection>): (r: seq<Detection>) {
    if dets == [] then []
    else
      var d := dets[|dets| - 1];
      Matched(cfg, dets[..|dets| - 1]) + if Matches(cfg, d) then [d] else []
  }

  function MatchedNames(cfg: Config, dets: seq<Detection>): set<string> {
    set d | d in dets && Matches(cfg, d) :: Lower(TrimSpace(d.name))
  }

  // In the all mode every configured label has to be there; otherwise one matching detection will do.
  predicate SmallAlarm(cfg: Config, dets: seq<Detection>) {
    if cfg.needsAll then LowerAll(cfg.labels) != {} && LowerAll(cfg.labels) <= MatchedNames(cfg, dets)
    else exists d :: d in dets && Matches(cfg, d)
  }

  datatype Hit = Hit(alarm: bool, matched: seq<Detection>)

  const NO_HIT := Hit(false, [])

  function HitOf(cfg: Config, dets: seq<Detection>): Hit {
    Hit(SmallAlarm(cfg, dets), Matched(cfg, dets))
  }

  lemma {:induction false} MatchedMembers(cfg: Config, dets: seq<Detection>)
    ensures forall d :: d in Matched(cfg, dets) <==> d in dets && Matches(cfg, d)
  {
    if dets != [] {
      MatchedMembers(cfg, dets[..|dets| - 1]);
      assert dets == dets[..|dets| - 1] + [dets[|dets| - 1]];
    }
  }

  /** A triggering algorithm always has something to show and to compare later. */
  lemma AlarmHasMatches(cfg: Config, dets: seq<Detection>)
    requires SmallAlarm(cfg, dets)
    ensures Matched(cfg, dets) != []
  {}

  function OfMode(configs: seq<Config>, mode: Mode): seq<Config> {
    if configs == [] then []
    else OfMode(configs[..|configs| - 1], mode) + if configs[|configs| - 1].mode == mode then [configs[|configs| - 1]] else []
  }

  lemma {:induction false} OfModeMembers(configs: seq<Config>, mode: Mode)
    ensures forall cfg :: cfg in OfMode(configs, mode) <==> cfg in configs && cfg.mode == mode
  {
    if configs != [] {
      OfModeMembers(configs[..|configs| - 1], mode);
      assert configs == configs[..|configs| - 1] + [configs[|configs| - 1]];
    }
  }

  function SmallConfigs(configs: seq<Config>): seq<Config> {
    if OfMode(configs, LlmOnly) != [] then OfMode(configs, SmallOnly) else OfMode(configs, SmallOnly) + OfMode(configs, Hybrid)
  }

  function MinThreshold(configs: seq<Config>): real
    requires configs != []
  {
    if |configs| == 1 then configs[0].threshold
    else
      var rest := MinThreshold(configs[..|configs| - 1]);
      if configs[|configs| - 1].threshold < rest then configs[|configs| - 1].threshold else rest
  }

  function AllLabels(configs: seq<Config>): set<string> {
    set cfg, s | cfg in configs && s in cfg.labels :: s
  }

  function Candidates(configs: seq<Config>, detect: Detector): seq<Detection> {
    var small := SmallConfigs(configs);
    if small == [] then [] else detect(MinThreshold(small), AllLabels(small))
  }

  // One hit per algorithm id; of several configurations with one id the last counts.
  function Hits(configs: seq<Config>, dets: seq<Detection>): map<string, Hit> {
    if configs == [] then map[]
    else Hits(configs[..|configs| - 1], dets)[configs[|configs| - 1].id := HitOf(configs[|configs| - 1], dets)]
  }

  function HitAt(hits: map<string, Hit>, id: string): Hit {
    if id in hits then hits[id] else NO_HIT
  }

  function FrameHits(configs: seq<Config>, detect: Detector): map<string, Hit> {
    Hits(SmallConfigs(configs), Candidates(configs, detect))
  }

  datatype Source = SmallModel | LargeModel

  datatype Alarm = Alarm(id: string, taskCode: string, source: Source, reason: string, boxes: seq<Detection>)

  const SMALL_REASON := "small model trigger"

  function SmallResults(configs: seq<Config>, hits: map<string, Hit>): seq<Alarm> {
    if configs == [] then []
    else
      var cfg := configs[|configs| - 1];
      var hit := HitAt(hits, cfg.id);
      SmallResults(configs[..|configs| - 1], hits) +
      if hit.alarm then [Alarm(cfg.id, cfg.taskCode, SmallModel, SMALL_REASON, hit.matched)] else []
  }

  function Ids(configs: seq<Config>): set<string> {
    set cfg | cfg in configs :: cfg.id
  }

  // --- The large model's answer ---

  datatype AlarmValue = Flag(on: bool) | Number(n: real) | Word(text: string)

  // A number counts by its integer part, a word by a fixed list.
  predicate IsAlarm(v: AlarmValue) {
    match v
    case Flag(on) => on
    case Number(n) => n >= 1.0 || n <= -1.0
    case Word(text) => Lower(TrimSpace(text)) in {"1", "true", "yes", "on"}
  }

  datatype Verdict = Verdict(taskCode: string, alarm: AlarmValue, reason: string, objectIds: seq<string>)

  // `shown` is the object's box in pixels, None when it is unreadable or empty.
  datatype Seen = Seen(objectId: string, taskCode: string, shown: Option<Detection>)

  // None stands for list entries that are not objects.
  datatype Payload = Payload(verdicts: seq<Option<Verdict>>, seen: seq<Option<Seen>>)

  // What asking about the frame led to: no request at all when the frame cannot be encoded; a
  // reply without text holds no payload.
  datatype Answer = NoRequest | Reply(payload: Option<Payload>)

  function Code(s: string): string { Upper(TrimSpace(s)) }

  // Of several configurations with one task code the last counts.
  function ByCode(configs: seq<Config>): map<string, Config> {
    if configs == [] then map[]
    else
      var cfg, rest := configs[|configs| - 1], ByCode(configs[..|configs| - 1]);
      if Code(cfg.taskCode) == "" then rest else rest[Code(cfg.taskCode) := cfg]
  }

  function ById(seen: seq<Option<Seen>>): map<string, Seen> {
    if seen == [] then map[]
    else
      var o, rest := seen[|seen| - 1], ById(seen[..|seen| - 1]);
      if o.None? || TrimSpace(o.value.objectId) == "" then rest else rest[TrimSpace(o.value.objectId) := o.value]
  }

  function OfCode(seen: seq<Option<Seen>>, code: string): seq<Seen> {
    if seen == [] then []
    else
      var o := seen[|seen| - 1];
      OfCode(seen[..|seen| - 1], code) + if o.Some? && Code(o.value.taskCode) == code then [o.value] else []
  }

  function Named(ids: seq<string>, byId: map<string, Seen>, code: string): seq<Seen> {
    if ids == [] then []
    else
      var id, rest := TrimSpace(ids[|ids| - 1]), Named(ids[..|ids| - 1], byId, code);
      if id in byId && Code(byId[id].taskCode) == code then rest + [byId[id]] else rest
  }

  function Shown(objects: seq<Seen>): seq<Detection> {
    if objects == [] then []
    else Shown(objects[..|objects| - 1]) + if objects[|objects| - 1].shown.Some? then [objects[|objects| - 1].shown.value] else []
  }

  function BoxesOf(v: Verdict, payload: Payload): seq<Detection> {
    var code := Code(v.taskCode);
    Shown(if v.objectIds != [] then Named(v.objectIds, ById(payload.seen), code) else OfCode(payload.seen, code))
  }

  // The alarm one verdict raises: its task has a configuration, the algorithm was asked about, and it says so.
  function VerdictResult(configs: seq<Config>, pending: set<string>, payload: Payload, v: Verdict): seq<Alarm> {
    var code, byCode := Code(v.taskCode), ByCode(configs);
    if code in byCode && byCode[code].id in pending && IsAlarm(v.alarm) then
      [Alarm(byCode[code].id, byCode[code].taskCode, LargeModel, v.reason, BoxesOf(v, payload))]
    else []
  }

  function LlmResults(configs: seq<Config>, pending: set<string>, payload: Payload, verdicts: seq<Option<Verdict>>): seq<Alarm> {
    if verdicts == [] then []
    else
      var v := verdicts[|verdicts| - 1];
      LlmResults(configs, pending, payload, verdicts[..|verdicts| - 1]) +
      if v.Some? then VerdictResult(configs, pending, payload, v.value) else []
  }

  function AnswerResults(configs: seq<Config>, pending: set<string>, answer: Answer): seq<Alarm> {
    if pending == {} || answer.NoRequest? || answer.payload.None? then []
    else LlmResults(configs, pending, answer.payload.value, answer.payload.value.verdicts)
  }

  // --- Which algorithms are asked about ---

  type Memory = map<string, seq<Detection>>

  function Remembered(memory: Memory, id: string): seq<Detection> {
    if id in memory then memory[id] else []
  }

  predicate Covered(d: Detection, previous: seq<Detection>, threshold: real) {
    exists p :: p in previous && p.name == d.name && Iou(p.box, d.box) >= threshold
  }

  predicate ShouldCall(previous: seq<Detection>, current: seq<Detection>, threshold: real) {
    previous == [] || |current| != |previous| || exists d :: d in current && !Covered(d, previous, threshold)
  }

  // Triggered hybrid algorithms whose detections are new to the memory.
  function Gated(configs: seq<Config>, hits: map<string, Hit>, memory: Memory): set<string> {
    set cfg | cfg in configs && HitAt(hits, cfg.id).alarm
                && ShouldCall(Remembered(memory, cfg.id), HitAt(hits, cfg.id).matched, cfg.iouThreshold) :: cfg.id
  }

  // With an algorithm that always asks the large model, the hybrid ones ride along unfiltered.
  function Pending(configs: seq<Config>, hits: map<string, Hit>, memory: Memory): set<string> {
    if OfMode(configs, LlmOnly) != [] then Ids(OfMode(configs, LlmOnly)) + Ids(OfMode(configs, Hybrid))
    else Gated(OfMode(configs, Hybrid), hits, memory)
  }

  // The detections of every triggered hybrid algorithm that was asked about.
  function Remember(configs: seq<Config>, hits: map<string, Hit>, pending: set<string>, memory: Memory): Memory {
    if configs == [] then memory
    else
      var id, rest := configs[|configs| - 1].id, Remember(configs[..|configs| - 1], hits, pending, memory);
      if HitAt(hits, id).alarm && id in pending then rest[id := HitAt(hits, id).matched] else rest
  }

  datatype Outcome = Outcome(results: seq<Alarm>, memory: Memory)

  /** One frame of a stream. */
  function StreamFrame(configs: seq<Config>, memory: Memory, detect: Detector, answer: Answer): Outcome {
    var hits := FrameHits(configs, detect);
    var pending := Pending(configs, hits, memory);
    Outcome(SmallResults(OfMode(configs, SmallOnly), hits) + AnswerResults(configs, pending, answer),
            if pending == {} || OfMode(configs, LlmOnly) != [] then memory
            else Remember(OfMode(configs, Hybrid), hits, pending, memory))
  }

  // Triggered hybrid algorithms, whatever was seen before.
  function Triggered(configs: seq<Config>, hits: map<string, Hit>): set<string> {
    set cfg | cfg in configs && HitAt(hits, cfg.id).alarm :: cfg.id
  }

  function ImagePending(configs: seq<Config>, hits: map<string, Hit>): set<string> {
    if OfMode(configs, LlmOnly) != [] then Ids(OfMode(configs, LlmOnly)) + Ids(OfMode(configs, Hybrid))
    else Triggered(OfMode(configs, Hybrid), hits)
  }

  /** A single image. */
  function ImageResults(configs: seq<Config>, detect: Detector, answer: Answer): seq<Alarm> {
    var hits := FrameHits(configs, detect);
    SmallResults(OfMode(configs, SmallOnly), hits) + AnswerResults(configs, ImagePending(configs, hits), answer)
  }

  /** The first frame of a stream and the same picture analysed as an image give the same results in
      the same order, for every list of configurations. */
  lemma StreamAgreesWithImage(configs: seq<Config>, detect: Detector, answer: Answer)
    ensures StreamFrame(configs, map[], detect, answer).results == ImageResults(configs, detect, answer)
  {
    var hits := FrameHits(configs, detect);
    assert Gated(OfMode(configs, Hybrid), hits, map[]) == Triggered(OfMode(configs, Hybrid), hits);
  }
}
