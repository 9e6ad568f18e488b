/** What the results of a frame mean, said without the way they are computed: which detections count,
    which verdicts raise an alarm, and which boxes the alarm shows. */
module FrameLaws {
  import opened Wrappers
  import opened Text
  import opened AnalysisConfig
  import opened FrameAnalysis

  // --- Which detections count for an algorithm ---

  // Sure enough, with a name, and with one of the labels when there are any, in any case.
  ghost predicate Wanted(cfg: Config, d: Detection) {
    && !(d.confidence < cfg.threshold) && TrimSpace(d.name) != ""
    && (cfg.labels != [] ==> exists name :: name in cfg.labels && Lower(name) == Lower(TrimSpace(d.name)))
  }

  // A detection with this label counts.
  ghost predicate Spotted(cfg: Config, dets: seq<Detection>, name: string) {
    exists d :: d in dets && Wanted(cfg, d) && Lower(TrimSpace(d.name)) == Lower(name)
  }

  lemma MatchesMeans(cfg: Config, d: Detection)
    ensures Matches(cfg, d) <==> Wanted(cfg, d)
  {
    if cfg.labels != [] { assert Lower(cfg.labels[0]) in LowerAll(cfg.labels); }
  }

  /** An algorithm triggers when some detection counts for it, or in the all mode when it has labels and
      each of them names one that counts; the detections it shows are those that count, in order. */
  lemma HitMeans(cfg: Config, dets: seq<Detection>)
    ensures var hit := HitOf(cfg, dets);
      && (!cfg.needsAll ==> (hit.alarm <==> exists d :: d in dets && Wanted(cfg, d)))
      && (cfg.needsAll ==> (hit.alarm <==> cfg.labels != [] && forall name | name in cfg.labels :: Spotted(cfg, dets, name)))
      && forall d :: d in hit.matched <==> d in dets && Wanted(cfg, d)
  {
    forall d ensures Matches(cfg, d) <==> Wanted(cfg, d) { MatchesMeans(cfg, d); }
    MatchedMembers(cfg, dets);
    if cfg.needsAll && cfg.labels != [] {
      assert Lower(cfg.labels[0]) in LowerAll(cfg.labels);
      forall name | name in cfg.labels
        ensures Lower(name) in MatchedNames(cfg, dets) <==> Spotted(cfg, dets, name)
      {
        assert Lower(name) in LowerAll(cfg.labels);
      }
    }
  }

  lemma {:induction false} MatchedInOrder(cfg: Config, before: seq<Detection>, d: Detection)
    ensures Matched(cfg, before + [d]) == if Wanted(cfg, d) then Matched(cfg, before) + [d] else Matched(cfg, before)
  {
    MatchesMeans(cfg, d);
    assert (before + [d])[..|before|] == before;
  }

  // --- What the detector is asked ---

  /** The detector is asked with the smallest of the thresholds and with every name of any of them. */
  lemma {:induction false} AskedWith(configs: seq<Config>)
    requires configs != []
    ensures (forall cfg | cfg in configs :: MinThreshold(configs) <= cfg.threshold)
    ensures exists cfg :: cfg in configs && cfg.threshold == MinThreshold(configs)
    ensures forall s :: s in AllLabels(configs) <==> exists cfg :: cfg in configs && s in cfg.labels
  {
    var init, last := configs[..|configs| - 1], configs[|configs| - 1];
    assert configs == init + [last];
    if init != [] {
      AskedWith(init);
      var low :| low in init && low.threshold == MinThreshold(init);
    }
  }

  // The last of the configurations with this id.
  ghost predicate LastWithId(configs: seq<Config>, id: string, cfg: Config) {
    exists i :: 0 <= i < |configs| && configs[i] == cfg && cfg.id == id && forall j | i < j < |configs| :: configs[j].id != id
  }

  /** The detections of an algorithm are judged by its last configuration among those that are looked at. */
  lemma {:induction false} HitOfLast(configs: seq<Config>, dets: seq<Detection>, id: string)
    ensures id in Hits(configs, dets) <==> exists cfg :: cfg in configs && cfg.id == id
    ensures forall cfg | LastWithId(configs, id, cfg) :: id in Hits(configs, dets) && Hits(configs, dets)[id] == HitOf(cfg, dets)
  {
    if configs != [] {
      var init, last := configs[..|configs| - 1], configs[|configs| - 1];
      assert configs == init + [last];
      HitOfLast(init, dets, id);
      forall cfg | LastWithId(configs, id, cfg) && last.id != id ensures LastWithId(init, id, cfg) {
        var i :| 0 <= i < |configs| && configs[i] == cfg && cfg.id == id && forall j | i < j < |configs| :: configs[j].id != id;
        assert init[i] == cfg;
      }
    }
  }

  // --- The large model's verdicts ---

  function IntegerPart(n: real): int { if n >= 0.0 then n.Floor else -((-n).Floor) }

  // A verdict says yes with a true flag, a number whose integer part is not zero, or one of four words.
  predicate SaysYes(v: AlarmValue) {
    match v
    case Flag(on) => on
    case Number(n) => IntegerPart(n) != 0
    case Word(text) =>
      var word := Lower(TrimSpace(text));
      word == "1" || word == "true" || word == "yes" || word == "on"
  }

  lemma IsAlarmMeans(v: AlarmValue)
    ensures IsAlarm(v) <==> SaysYes(v)
  {}

  /** The two forms the output format asks for, and some it does not. */
  lemma VerdictExamples()
    ensures IsAlarm(Word("1")) && !IsAlarm(Word("0")) && !IsAlarm(Word("")) && IsAlarm(Flag(true)) && !IsAlarm(Flag(false))
    ensures IsAlarm(Number(1.0)) && !IsAlarm(Number(0.0)) && !IsAlarm(Number(0.9)) && IsAlarm(Number(-1.0))
  {
    TrimSpaceTrims("1");
    TrimSpaceTrims("0");
    TrimSpaceTrims("");
    assert Lower("0")[0] == '0' && Lower("1") == "1" && Lower("") == "";
  }

  // The configuration a task code stands for: the last one that has it.
  ghost predicate Owns(configs: seq<Config>, code: string, cfg: Config) {
    code != "" && exists i :: 0 <= i < |configs| && configs[i] == cfg && Code(cfg.taskCode) == code
                           && forall j | i < j < |configs| :: Code(configs[j].taskCode) != code
  }

  lemma {:induction false} OwnerIs(configs: seq<Config>, code: string, cfg: Config)
    ensures Owns(configs, code, cfg) <==> code in ByCode(configs) && ByCode(configs)[code] == cfg
  {
    hide Code;
    if configs != [] {
      var init, last := configs[..|configs| - 1], configs[|configs| - 1];
      assert configs == init + [last];
      OwnerIs(init, code, cfg);
      if Owns(configs, code, cfg) && Code(last.taskCode) != code {
        var i :| 0 <= i < |configs| && configs[i] == cfg && Code(cfg.taskCode) == code && forall j | i < j < |configs| :: Code(configs[j].taskCode) != code;
        assert init[i] == cfg;
        assert Owns(init, code, cfg);
      }
      if Owns(init, code, cfg) && Code(last.taskCode) != code {
        var i :| 0 <= i < |init| && init[i] == cfg && Code(cfg.taskCode) == code && forall j | i < j < |init| :: Code(init[j].taskCode) != code;
        assert configs[i] == cfg;
        assert Owns(configs, code, cfg);
      }
      if Code(last.taskCode) == code && code != "" && cfg == last { assert configs[|configs| - 1] == cfg; }
    }
  }

  // Verdict `v` makes algorithm configuration `cfg` raise an alarm.
  ghost predicate Raises(configs: seq<Config>, asked: set<string>, v: Verdict, cfg: Config) {
    SaysYes(v.alarm) && Owns(configs, Upper(TrimSpace(v.taskCode)), cfg) && cfg.id in asked
  }

  // The alarm a verdict raises.
  ghost predicate IsRaised(configs: seq<Config>, asked: set<string>, payload: Payload, v: Verdict, a: Alarm) {
    exists cfg :: Raises(configs, asked, v, cfg) && a == Alarm(cfg.id, cfg.taskCode, LargeModel, v.reason, BoxesOf(v, payload))
  }

  lemma VerdictRaises(configs: seq<Config>, asked: set<string>, payload: Payload, v: Verdict)
    ensures |VerdictResult(configs, asked, payload, v)| <= 1
    ensures forall a :: a in VerdictResult(configs, asked, payload, v) <==> IsRaised(configs, asked, payload, v, a)
  {
    hide BoxesOf, ByCode, Owns, IsAlarm, SaysYes;
    var code := Code(v.taskCode);
    IsAlarmMeans(v.alarm);
    forall cfg ensures Owns(configs, code, cfg) <==> code in ByCode(configs) && ByCode(configs)[code] == cfg { OwnerIs(configs, code, cfg); }
    if code in ByCode(configs) && Raises(configs, asked, v, ByCode(configs)[code]) {
      var cfg := ByCode(configs)[code];
      assert IsRaised(configs, asked, payload, v, Alarm(cfg.id, cfg.taskCode, LargeModel, v.reason, BoxesOf(v, payload)));
    }
  }

  /** The large model's alarms are exactly those its verdicts raise, */
  lemma {:induction false} LargeAlarmsIff(configs: seq<Config>, asked: set<string>, payload: Payload, verdicts: seq<Option<Verdict>>, a: Alarm)
    ensures a in LlmResults(configs, asked, payload, verdicts) <==>
      exists v: Verdict :: Some(v) in verdicts && IsRaised(configs, asked, payload, v, a)
  {
    hide IsRaised, VerdictResult;
    if verdicts != [] {
      var init, last := verdicts[..|verdicts| - 1], verdicts[|verdicts| - 1];
      assert verdicts == init + [last];
      LargeAlarmsIff(configs, asked, payload, init, a);
      if last.Some? {
        VerdictRaises(configs, asked, payload, last.value);
        assert Some(last.value) in verdicts;
      }
      forall v: Verdict | Some(v) in init ensures Some(v) in verdicts {}
    }
  }

  /** one for each verdict that raises any, in the order of the verdicts. */
  lemma LargeAlarmsInOrder(configs: seq<Config>, asked: set<string>, payload: Payload, before: seq<Option<Verdict>>, last: Option<Verdict>)
    ensures var now, earlier := LlmResults(configs, asked, payload, before + [last]), LlmResults(configs, asked, payload, before);
      if last.Some? && exists cfg :: Raises(configs, asked, last.value, cfg)
      then |now| == |earlier| + 1 && now[..|earlier|] == earlier && IsRaised(configs, asked, payload, last.value, now[|earlier|])
      else now == earlier
  {
    hide IsRaised, VerdictResult, Raises;
    assert (before + [last])[..|before|] == before;
    if last.Some? {
      VerdictRaises(configs, asked, payload, last.value);
      RaisesOne(configs, asked, payload, last.value);
    }
  }

  lemma RaisesOne(configs: seq<Config>, asked: set<string>, payload: Payload, v: Verdict)
    ensures (exists cfg :: Raises(configs, asked, v, cfg)) <==> exists a :: IsRaised(configs, asked, payload, v, a)
    ensures (exists cfg :: Raises(configs, asked, v, cfg)) <==> VerdictResult(configs, asked, payload, v) != []
  {
    hide BoxesOf, Raises, VerdictResult;
    VerdictRaises(configs, asked, payload, v);
    if cfg :| Raises(configs, asked, v, cfg) {
      assert IsRaised(configs, asked, payload, v, Alarm(cfg.id, cfg.taskCode, LargeModel, v.reason, BoxesOf(v, payload)));
    }
    var found := VerdictResult(configs, asked, payload, v);
    if found != [] { assert found[0] in found && IsRaised(configs, asked, payload, v, found[0]); }
  }

  // --- The boxes an alarm shows ---

  // The last object given under this id.
  ghost predicate LastObject(seen: seq<Option<Seen>>, id: string, o: Seen) {
    id != "" && exists i :: 0 <= i < |seen| && seen[i] == Some(o) && TrimSpace(o.objectId) == id
                         && forall j | i < j < |seen| && seen[j].Some? :: TrimSpace(seen[j].value.objectId) != id
  }

  lemma {:induction false} ObjectIs(seen: seq<Option<Seen>>, id: string, o: Seen)
    ensures LastObject(seen, id, o) <==> id in ById(seen) && ById(seen)[id] == o
  {
    hide TrimSpace;
    if seen != [] {
      var init, last := seen[..|seen| - 1], seen[|seen| - 1];
      assert seen == init + [last];
      ObjectIs(init, id, o);
      var hits := last.Some? && TrimSpace(last.value.objectId) == id;
      if LastObject(seen, id, o) && !hits {
        var i :| 0 <= i < |seen| && seen[i] == Some(o) && TrimSpace(o.objectId) == id
          && forall j | i < j < |seen| && seen[j].Some? :: TrimSpace(seen[j].value.objectId) != id;
        assert init[i] == Some(o);
        assert LastObject(init, id, o);
      }
      if LastObject(init, id, o) && !hits {
        var i :| 0 <= i < |init| && init[i] == Some(o) && TrimSpace(o.objectId) == id
          && forall j | i < j < |init| && init[j].Some? :: TrimSpace(init[j].value.objectId) != id;
        assert seen[i] == Some(o);
        assert LastObject(seen, id, o);
      }
      if hits && id != "" && o == last.value { assert seen[|seen| - 1] == Some(o); }
    }
  }

  lemma {:induction false} ShownMembers(objects: seq<Seen>, d: Detection)
    ensures d in Shown(objects) <==> exists o :: o in objects && o.shown == Some(d)
  {
    if objects != [] {
      assert objects == objects[..|objects| - 1] + [objects[|objects| - 1]];
      ShownMembers(objects[..|objects| - 1], d);
    }
  }

  lemma {:induction false} OfCodeMembers(seen: seq<Option<Seen>>, code: string, o: Seen)
    ensures o in OfCode(seen, code) <==> Some(o) in seen && Code(o.taskCode) == code
  {
    if seen != [] {
      assert seen == seen[..|seen| - 1] + [seen[|seen| - 1]];
      OfCodeMembers(seen[..|seen| - 1], code, o);
    }
  }

  lemma {:induction false} NamedMembers(ids: seq<string>, byId: map<string, Seen>, code: string, o: Seen)
    ensures o in Named(ids, byId, code) <==>
      Code(o.taskCode) == code && exists id :: id in ids && TrimSpace(id) in byId && byId[TrimSpace(id)] == o
  {
    if ids != [] {
      var init, last := ids[..|ids| - 1], ids[|ids| - 1];
      assert ids == init + [last];
      NamedMembers(init, byId, code, o);
    }
  }

  // The object belongs to the verdict's task, and the verdict names it if it names any.
  ghost predicate Means(v: Verdict, payload: Payload, o: Seen) {
    && Upper(TrimSpace(o.taskCode)) == Upper(TrimSpace(v.taskCode))
    && if v.objectIds == [] then Some(o) in payload.seen
       else exists id :: id in v.objectIds && LastObject(payload.seen, TrimSpace(id), o)
  }

  /** An alarm shows exactly the readable boxes of the objects of its task: of those its verdict names,
      or of all of them when it names none. */
  lemma BoxesIff(v: Verdict, payload: Payload, d: Detection)
    ensures d in BoxesOf(v, payload) <==> exists o :: Means(v, payload, o) && o.shown == Some(d)
  {
    hide ById, OfCode, Named, Shown, LastObject;
    var code := Code(v.taskCode);
    var objects := if v.objectIds != [] then Named(v.objectIds, ById(payload.seen), code) else OfCode(payload.seen, code);
    ShownMembers(objects, d);
    forall o ensures o in objects <==> Means(v, payload, o) {
      if v.objectIds == [] {
        OfCodeMembers(payload.seen, code, o);
      } else {
        NamedMembers(v.objectIds, ById(payload.seen), code, o);
        forall id ensures LastObject(payload.seen, id, o) <==> id in ById(payload.seen) && ById(payload.seen)[id] == o {
          ObjectIs(payload.seen, id, o);
        }
      }
    }
  }

  // --- A whole frame ---

  /** Which algorithms the large model is asked about: with one that always asks, every one that is not
      left to the small model; else the hybrid ones whose last configuration triggers and that are new. */
  lemma PendingIff(configs: seq<Config>, hits: map<string, Hit>, memory: Memory, id: string)
    ensures id in Pending(configs, hits, memory) <==>
      if exists cfg :: cfg in configs && cfg.mode == LlmOnly
      then exists cfg :: cfg in configs && cfg.mode != SmallOnly && cfg.id == id
      else exists cfg :: cfg in configs && cfg.mode == Hybrid && cfg.id == id && id in hits && hits[id].alarm
                         && ShouldCall(Remembered(memory, id), hits[id].matched, cfg.iouThreshold)
  {
    hide ShouldCall;
    OfModeMembers(configs, LlmOnly);
    OfModeMembers(configs, Hybrid);
    if OfMode(configs, LlmOnly) != [] { assert OfMode(configs, LlmOnly)[0] in OfMode(configs, LlmOnly); }
  }

  lemma ImagePendingIff(configs: seq<Config>, hits: map<string, Hit>, id: string)
    ensures id in ImagePending(configs, hits) <==>
      if exists cfg :: cfg in configs && cfg.mode == LlmOnly
      then exists cfg :: cfg in configs && cfg.mode != SmallOnly && cfg.id == id
      else exists cfg :: cfg in configs && cfg.mode == Hybrid && cfg.id == id && id in hits && hits[id].alarm
  {
    OfModeMembers(configs, LlmOnly);
    OfModeMembers(configs, Hybrid);
    if OfMode(configs, LlmOnly) != [] { assert OfMode(configs, LlmOnly)[0] in OfMode(configs, LlmOnly); }
  }

  /** The small model looks at the algorithms left to it, and at the hybrid ones unless one always asks. */
  lemma SmallConfigsIff(configs: seq<Config>, cfg: Config)
    ensures cfg in SmallConfigs(configs) <==>
      cfg in configs && (cfg.mode == SmallOnly || (cfg.mode == Hybrid && !exists other :: other in configs && other.mode == LlmOnly))
  {
    OfModeMembers(configs, SmallOnly);
    OfModeMembers(configs, LlmOnly);
    OfModeMembers(configs, Hybrid);
    if OfMode(configs, LlmOnly) != [] { assert OfMode(configs, LlmOnly)[0] in OfMode(configs, LlmOnly); }
  }

  // An alarm of the small model: an algorithm left to it has triggered.
  ghost predicate SmallAlarmOf(configs: seq<Config>, hits: map<string, Hit>, a: Alarm) {
    exists cfg :: cfg in configs && cfg.mode == SmallOnly && TriggerOf(hits, cfg, a)
  }

  predicate TriggerOf(hits: map<string, Hit>, cfg: Config, a: Alarm) {
    && cfg.id in hits && hits[cfg.id].alarm
    && a == Alarm(cfg.id, cfg.taskCode, SmallModel, "small model trigger", hits[cfg.id].matched)
  }

  // An alarm of the large model: a verdict of its answer raises it.
  ghost predicate LargeAlarmOf(configs: seq<Config>, asked: set<string>, answer: Answer, a: Alarm) {
    answer.Reply? && answer.payload.Some? &&
    exists v: Verdict :: Some(v) in answer.payload.value.verdicts && IsRaised(configs, asked, answer.payload.value, v, a)
  }

  // The alarms of a frame with these hits, when the large model is asked about these algorithms.
  ghost predicate AlarmOf(configs: seq<Config>, hits: map<string, Hit>, asked: set<string>, answer: Answer, a: Alarm) {
    SmallAlarmOf(configs, hits, a) || LargeAlarmOf(configs, asked, answer, a)
  }

  lemma {:induction false} SmallAlarmsIff(configs: seq<Config>, hits: map<string, Hit>, a: Alarm)
    ensures a in SmallResults(configs, hits) <==> exists cfg :: cfg in configs && TriggerOf(hits, cfg, a)
  {
    if configs != [] {
      var init, last := configs[..|configs| - 1], configs[|configs| - 1];
      assert configs == init + [last];
      SmallAlarmsIff(init, hits, a);
      assert TriggerOf(hits, last, a) ==> last in configs;
    }
  }

  lemma AnswerAlarmsIff(configs: seq<Config>, asked: set<string>, answer: Answer, a: Alarm)
    ensures a in AnswerResults(configs, asked, answer) <==> LargeAlarmOf(configs, asked, answer, a)
  {
    hide LlmResults, Owns, SaysYes, BoxesOf;
    if answer.Reply? && answer.payload.Some? {
      LargeAlarmsIff(configs, asked, answer.payload.value, answer.payload.value.verdicts, a);
    }
  }

  /** The results of a frame or an image are exactly these alarms. */
  lemma ResultsIff(configs: seq<Config>, hits: map<string, Hit>, asked: set<string>, answer: Answer)
    ensures forall a :: a in SmallResults(OfMode(configs, SmallOnly), hits) + AnswerResults(configs, asked, answer) <==>
      AlarmOf(configs, hits, asked, answer, a)
  {
    hide SmallResults, AnswerResults, LargeAlarmOf;
    OfModeMembers(configs, SmallOnly);
    forall a ensures a in SmallResults(OfMode(configs, SmallOnly), hits) + AnswerResults(configs, asked, answer) <==>
      AlarmOf(configs, hits, asked, answer, a)
    {
      SmallAlarmsIff(OfMode(configs, SmallOnly), hits, a);
      AnswerAlarmsIff(configs, asked, answer, a);
    }
  }
}
