/** The two implementations of a frame's analysis as the service runs them: the stream task with its
    memory, and the single-image handler that repeats the same rules in its own order. */
module FrameTasks {
  import opened Wrappers
  import opened Text
  import opened AnalysisConfig
  import opened FrameAnalysis
  import opened FrameLaws

  // --- Pieces both copies contain ---

  method SplitModes(configs: seq<Config>) returns (small: seq<Config>, llm: seq<Config>, hybrid: seq<Config>)
    ensures small == OfMode(configs, SmallOnly) && llm == OfMode(configs, LlmOnly) && hybrid == OfMode(configs, Hybrid)
  {
    small, llm, hybrid := [], [], [];
    for i := 0 to |configs|
      invariant small == OfMode(configs[..i], SmallOnly) && llm == OfMode(configs[..i], LlmOnly)
      invariant hybrid == OfMode(configs[..i], Hybrid)
    {
      assert configs[..i + 1][..i] == configs[..i];
      match configs[i].mode {
        case SmallOnly => small := small + [configs[i]];
        case LlmOnly => llm := llm + [configs[i]];
        case Hybrid => hybrid := hybrid + [configs[i]];
      }
    }
    assert configs[..|configs|] == configs;
  }

  method Detect(configs: seq<Config>, detect: Detector) returns (dets: seq<Detection>)
    ensures dets == if configs == [] then [] else detect(MinThreshold(configs), AllLabels(configs))
  {
    if configs == [] { return []; }
    var low := configs[0].threshold;
    var labels := set s | s in configs[0].labels;
    for i := 1 to |configs|
      invariant low == MinThreshold(configs[..i]) && labels == AllLabels(configs[..i])
    {
      assert configs[..i + 1][..i] == configs[..i];
      if configs[i].threshold < low { low := configs[i].threshold; }
      labels := labels + set s | s in configs[i].labels;
      assert AllLabels(configs[..i + 1]) == AllLabels(configs[..i]) + set s | s in configs[i].labels;
    }
    assert configs[..|configs|] == configs;
    dets := detect(low, labels);
  }

  // The detections an algorithm accepts and the names they carry.
  method MatchDetections(cfg: Config, dets: seq<Detection>) returns (matched: seq<Detection>, names: set<string>)
    ensures matched == Matched(cfg, dets) && names == MatchedNames(cfg, dets)
  {
    var wanted := LowerAll(cfg.labels);
    matched, names := [], {};
    for i := 0 to |dets|
      invariant matched == Matched(cfg, dets[..i]) && names == MatchedNames(cfg, dets[..i])
    {
      assert dets[..i + 1][..i] == dets[..i];
      assert dets[..i + 1] == dets[..i] + [dets[i]];
      if dets[i].confidence < cfg.threshold { continue; }
      var name := TrimSpace(dets[i].name);
      if name == "" { continue; }
      if wanted != {} && Lower(name) !in wanted { continue; }
      matched := matched + [dets[i]];
      names := names + {Lower(name)};
    }
    assert dets[..|dets|] == dets;
  }

  method SmallAlarms(configs: seq<Config>, hits: map<string, Hit>) returns (results: seq<Alarm>)
    ensures results == SmallResults(configs, hits)
  {
    results := [];
    for i := 0 to |configs|
      invariant results == SmallResults(configs[..i], hits)
    {
      assert configs[..i + 1][..i] == configs[..i];
      var hit := HitAt(hits, configs[i].id);
      if !hit.alarm { continue; }
      results := results + [Alarm(configs[i].id, configs[i].taskCode, SmallModel, SMALL_REASON, hit.matched)];
    }
    assert configs[..|configs|] == configs;
  }

  method IndexConfigs(configs: seq<Config>) returns (byCode: map<string, Config>)
    ensures byCode == ByCode(configs)
  {
    byCode := map[];
    for i := 0 to |configs|
      invariant byCode == ByCode(configs[..i])
    {
      assert configs[..i + 1][..i] == configs[..i];
      var code := Code(configs[i].taskCode);
      if code != "" { byCode := byCode[code := configs[i]]; }
    }
    assert configs[..|configs|] == configs;
  }

  function Listed(byCode: map<string, seq<Seen>>, code: string): seq<Seen> {
    if code in byCode then byCode[code] else []
  }

  method IndexObjects(seen: seq<Option<Seen>>) returns (byCode: map<string, seq<Seen>>, byId: map<string, Seen>)
    ensures byId == ById(seen) && forall code | code != "" :: Listed(byCode, code) == OfCode(seen, code)
  {
    byCode, byId := map[], map[];
    for i := 0 to |seen|
      invariant byId == ById(seen[..i]) && forall code | code != "" :: Listed(byCode, code) == OfCode(seen[..i], code)
    {
      assert seen[..i + 1][..i] == seen[..i];
      if seen[i].None? { continue; }
      var code, id := Code(seen[i].value.taskCode), TrimSpace(seen[i].value.objectId);
      if code != "" { byCode := byCode[code := Listed(byCode, code) + [seen[i].value]]; }
      if id != "" { byId := byId[id := seen[i].value]; }
    }
    assert seen[..|seen|] == seen;
  }

  method SelectBoxes(v: Verdict, payload: Payload, byCode: map<string, seq<Seen>>, byId: map<string, Seen>)
    returns (boxes: seq<Detection>)
    requires byId == ById(payload.seen) && Code(v.taskCode) != ""
    requires forall code | code != "" :: Listed(byCode, code) == OfCode(payload.seen, code)
    ensures boxes == BoxesOf(v, payload)
  {
    var code := Code(v.taskCode);
    var selected := [];
    if v.objectIds != [] {
      for i := 0 to |v.objectIds|
        invariant selected == Named(v.objectIds[..i], byId, code)
      {
        assert v.objectIds[..i + 1][..i] == v.objectIds[..i];
        var id := TrimSpace(v.objectIds[i]);
        if id !in byId { continue; }
        if Code(byId[id].taskCode) != code { continue; }
        selected := selected + [byId[id]];
      }
      assert v.objectIds[..|v.objectIds|] == v.objectIds;
    } else {
      selected := Listed(byCode, code);
    }
    boxes := [];
    for i := 0 to |selected|
      invariant boxes == Shown(selected[..i])
    {
      assert selected[..i + 1][..i] == selected[..i];
      if selected[i].shown.Some? { boxes := boxes + [selected[i].shown.value]; }
    }
    assert selected[..|selected|] == selected;
  }

  lemma {:induction false} CodesNotBlank(configs: seq<Config>)
    ensures "" !in ByCode(configs)
  {
    if configs != [] { CodesNotBlank(configs[..|configs| - 1]); }
  }

  // --- The stream ---

  class CameraTask {
    const configs: seq<Config>
    var memory: Memory

    constructor (configs: seq<Config>)
      requires forall cfg | cfg in configs :: Normalised(cfg)
      ensures this.configs == configs && memory == map[]
    {
      this.configs := configs;
      memory := map[];
    }

    method EvaluateHits(dets: seq<Detection>, targets: seq<Config>) returns (evaluations: seq<(Config, Hit)>)
      ensures |evaluations| == |targets|
      ensures forall i | 0 <= i < |targets| :: evaluations[i] == (targets[i], HitOf(targets[i], dets))
    {
      hide Matched, Matches, MatchedNames;
      evaluations := [];
      for i := 0 to |targets|
        invariant |evaluations| == i && forall j | 0 <= j < i :: evaluations[j] == (targets[j], HitOf(targets[j], dets))
      {
        var cfg := targets[i];
        var matched, names := MatchDetections(cfg, dets);
        var wanted := LowerAll(cfg.labels);
        var alarm;
        if cfg.needsAll {
          var missing := wanted - names;
          alarm := |wanted| > 0 && |missing| == 0;
          assert |missing| == 0 <==> missing == {};
          assert forall s :: s in missing <==> s in wanted && s !in names;
        } else {
          alarm := |matched| > 0;
          MatchedMembers(cfg, dets);
          if alarm { assert matched[0] in dets; }
        }
        evaluations := evaluations + [(cfg, Hit(alarm, matched))];
      }
    }

    method IndexHits(evaluations: seq<(Config, Hit)>, targets: seq<Config>, dets: seq<Detection>) returns (index: map<string, Hit>)
      requires |evaluations| == |targets|
      requires forall i | 0 <= i < |targets| :: evaluations[i] == (targets[i], HitOf(targets[i], dets)) && Normalised(targets[i])
      ensures index == Hits(targets, dets)
    {
      index := map[];
      for i := 0 to |targets|
        invariant index == Hits(targets[..i], dets)
      {
        assert targets[..i + 1][..i] == targets[..i];
        assert Normalised(targets[i]);
        var id := TrimSpace(evaluations[i].0.id);
        if id != "" { index := index[id := evaluations[i].1]; }
      }
      assert targets[..|targets|] == targets;
    }

    method ShouldCallFor(id: string, current: seq<Detection>, threshold: real) returns (call: bool)
      ensures call == ShouldCall(Remembered(memory, id), current, threshold)
      ensures var previous := if id in memory then memory[id] else [];
        call <==>
        previous == [] || |current| != |previous| ||
        exists d :: d in current && forall p | p in previous :: p.name != d.name || Iou(p.box, d.box) < threshold
    {
      var previous := Remembered(memory, id);
      if previous == [] { return true; }
      if |current| != |previous| { return true; }
      for i := 0 to |current|
        invariant forall j | 0 <= j < i :: Covered(current[j], previous, threshold)
      {
        var matched := false;
        for j := 0 to |previous|
          invariant !matched && forall k | 0 <= k < j :: !(previous[k].name == current[i].name && Iou(previous[k].box, current[i].box) >= threshold)
        {
          if previous[j].name == current[i].name && Iou(previous[j].box, current[i].box) >= threshold {
            matched := true;
            assert previous[j] in previous;
            break;
          }
        }
        if !matched {
          assert current[i] in current && !Covered(current[i], previous, threshold);
          return true;
        }
      }
      call := false;
    }

    // Configuration first, then the gate, then the verdict.
    method BuildLlmResults(payload: Payload, only: set<string>) returns (results: seq<Alarm>)
      ensures results == LlmResults(configs, only, payload, payload.verdicts)
    {
      hide ByCode, ById, OfCode, Named, Shown, BoxesOf, IsAlarm, Code, Listed;
      var byCode := IndexConfigs(configs);
      var objectsByCode, objectById := IndexObjects(payload.seen);
      results := [];
      var verdicts := payload.verdicts;
      for i := 0 to |verdicts|
        invariant results == LlmResults(configs, only, payload, verdicts[..i])
      {
        assert verdicts[..i + 1][..i] == verdicts[..i];
        if verdicts[i].None? { continue; }
        var v := verdicts[i].value;
        var code := Code(v.taskCode);
        if code !in byCode { continue; }
        CodesNotBlank(configs);
        var cfg := byCode[code];
        if cfg.id !in only { continue; }
        if !IsAlarm(v.alarm) { continue; }
        var boxes := SelectBoxes(v, payload, objectsByCode, objectById);
        results := results + [Alarm(cfg.id, cfg.taskCode, LargeModel, v.reason, boxes)];
      }
      assert verdicts[..|verdicts|] == verdicts;
    }

    // The hybrid algorithms that triggered, and those of them that are to be asked about.
    method Gate(hybrid: seq<Config>, hits: map<string, Hit>) returns (entries: seq<(string, seq<Detection>)>, pending: set<string>)
      ensures pending == Gated(hybrid, hits, memory)
      ensures entries == Entries(hybrid, hits)
    {
      hide Gated, ShouldCall;
      entries, pending := [], {};
      assert pending == Gated([], hits, memory) by { NoneGated(hits, memory); }
      for i := 0 to |hybrid|
        invariant pending == Gated(hybrid[..i], hits, memory) && entries == Entries(hybrid[..i], hits)
      {
        assert hybrid[..i + 1][..i] == hybrid[..i];
        GatedStep(hybrid, i, hits, memory);
        var hit := HitAt(hits, hybrid[i].id);
        if !hit.alarm { continue; }
        entries := entries + [(hybrid[i].id, hit.matched)];
        var call := ShouldCallFor(hybrid[i].id, hit.matched, hybrid[i].iouThreshold);
        if call { pending := pending + {hybrid[i].id}; }
      }
      assert hybrid[..|hybrid|] == hybrid;
    }

    method Store(entries: seq<(string, seq<Detection>)>, pending: set<string>)
      modifies this`memory
      ensures memory == Stored(entries, pending, old(memory))
    {
      for i := 0 to |entries|
        invariant memory == Stored(entries[..i], pending, old(memory))
      {
        assert entries[..i + 1][..i] == entries[..i];
        if entries[i].0 in pending { memory := memory[entries[i].0 := entries[i].1]; }
      }
      assert entries[..|entries|] == entries;
    }

    method Decide(llm: seq<Config>, hybrid: seq<Config>, hits: map<string, Hit>)
      returns (entries: seq<(string, seq<Detection>)>, pending: set<string>)
      requires llm == OfMode(configs, LlmOnly) && hybrid == OfMode(configs, Hybrid)
      ensures pending == Pending(configs, hits, memory)
      ensures llm == [] ==> entries == Entries(hybrid, hits)
    {
      entries := [];
      pending := set cfg | cfg in llm :: cfg.id;
      if |llm| > 0 {
        pending := pending + set cfg | cfg in hybrid :: cfg.id;
      } else {
        entries, pending := Gate(hybrid, hits);
      }
    }

    method Ask(pending: set<string>, answer: Answer) returns (results: seq<Alarm>)
      ensures results == AnswerResults(configs, pending, answer)
    {
      results := [];
      if pending != {} && answer.Reply? && answer.payload.Some? {
        results := BuildLlmResults(answer.payload.value, pending);
      }
    }

    method ProcessFrame(detect: Detector, answer: Answer) returns (results: seq<Alarm>)
      requires forall cfg | cfg in configs :: Normalised(cfg)
      modifies this`memory
      ensures Outcome(results, memory) == StreamFrame(configs, old(memory), detect, answer)
      ensures var hits := FrameHits(configs, detect);
        forall a :: a in results <==> AlarmOf(configs, hits, Pending(configs, hits, old(memory)), answer, a)
    {
      hide Hits, SmallResults, AnswerResults, Pending, Entries, Stored, Remember, Normalised, MinThreshold, AllLabels, AlarmOf;
      var small, llm, hybrid := SplitModes(configs);
      var targets := if |llm| > 0 then small else small + hybrid;
      var dets := Detect(targets, detect);
      var evaluations := EvaluateHits(dets, targets);
      OfModeMembers(configs, SmallOnly);
      OfModeMembers(configs, Hybrid);
      var hits := IndexHits(evaluations, targets, dets);
      assert hits == FrameHits(configs, detect);
      results := SmallAlarms(small, hits);
      var entries, pending := Decide(llm, hybrid, hits);
      var found := Ask(pending, answer);
      results := results + found;
      ResultsIff(configs, hits, pending, answer);
      if pending != {} && |llm| == 0 {
        StoredIsRemember(hybrid, hits, pending, memory);
        Store(entries, pending);
      }
    }
  }

  lemma NoneGated(hits: map<string, Hit>, memory: Memory)
    ensures Gated([], hits, memory) == {}
  {}

  lemma GatedStep(hybrid: seq<Config>, i: nat, hits: map<string, Hit>, memory: Memory)
    requires i < |hybrid|
    ensures var cfg := hybrid[i];
      Gated(hybrid[..i + 1], hits, memory) == Gated(hybrid[..i], hits, memory) +
        if HitAt(hits, cfg.id).alarm && ShouldCall(Remembered(memory, cfg.id), HitAt(hits, cfg.id).matched, cfg.iouThreshold)
        then {cfg.id} else {}
  {}

  function Entries(hybrid: seq<Config>, hits: map<string, Hit>): seq<(string, seq<Detection>)> {
    if hybrid == [] then []
    else
      var id := hybrid[|hybrid| - 1].id;
      Entries(hybrid[..|hybrid| - 1], hits) + if HitAt(hits, id).alarm then [(id, HitAt(hits, id).matched)] else []
  }

  function Stored(entries: seq<(string, seq<Detection>)>, pending: set<string>, memory: Memory): Memory {
    if entries == [] then memory
    else
      var e, rest := entries[|entries| - 1], Stored(entries[..|entries| - 1], pending, memory);
      if e.0 in pending then rest[e.0 := e.1] else rest
  }

  lemma {:induction false} StoredIsRemember(hybrid: seq<Config>, hits: map<string, Hit>, pending: set<string>, memory: Memory)
    ensures Stored(Entries(hybrid, hits), pending, memory) == Remember(hybrid, hits, pending, memory)
  {
    if hybrid != [] {
      var init := hybrid[..|hybrid| - 1];
      StoredIsRemember(init, hits, pending, memory);
      var all := Entries(hybrid, hits);
      if HitAt(hits, hybrid[|hybrid| - 1].id).alarm {
        assert all[..|all| - 1] == Entries(init, hits);
      } else {
        assert all == Entries(init, hits);
      }
    }
  }

  // --- The single image ---

  datatype AnalyzeError = ConfigsRequired

  method AnalyzeImage(configs: seq<Config>, detect: Detector, answer: Answer) returns (r: Result<seq<Alarm>, AnalyzeError>)
    ensures r == if configs == [] then Err(ConfigsRequired) else Ok(ImageResults(configs, detect, answer))
    ensures var hits := FrameHits(configs, detect);
      r.Ok? ==> forall a :: a in r.value <==> AlarmOf(configs, hits, ImagePending(configs, hits), answer, a)
  {
    hide AlarmOf;
    if configs == [] { return Err(ConfigsRequired); }
    var small, llm, hybrid := SplitModes(configs);
    var targets := if |llm| > 0 then small else small + hybrid;
    var dets := Detect(targets, detect);
    var hits := EvaluateImage(dets, targets);
    var results := SmallAlarms(small, hits);
    var pending := set cfg | cfg in llm :: cfg.id;
    if |llm| > 0 {
      pending := pending + set cfg | cfg in hybrid :: cfg.id;
    } else {
      pending := set cfg | cfg in hybrid && HitAt(hits, cfg.id).alarm :: cfg.id;
    }
    assert pending == ImagePending(configs, hits);
    ResultsIff(configs, hits, pending, answer);
    assert results + [] == results;
    if pending != {} && answer.Reply? && answer.payload.Some? {
      var found := ReadAnswer(configs, answer.payload.value, pending);
      results := results + found;
    }
    r := Ok(results);
  }

  method EvaluateImage(dets: seq<Detection>, targets: seq<Config>) returns (index: map<string, Hit>)
    ensures index == Hits(targets, dets)
  {
    index := map[];
    for i := 0 to |targets|
      invariant index == Hits(targets[..i], dets)
    {
      assert targets[..i + 1][..i] == targets[..i];
      var cfg := targets[i];
      var matched, names := MatchDetections(cfg, dets);
      var wanted := LowerAll(cfg.labels);
      MatchedMembers(cfg, dets);
      var alarm := if cfg.needsAll then |wanted| > 0 && forall s | s in wanted :: s in names else |matched| > 0;
      if |matched| > 0 { assert matched[0] in dets; }
      index := index[cfg.id := Hit(alarm, matched)];
    }
    assert targets[..|targets|] == targets;
  }

  // The verdict first, then the configuration, then the gate.
  method ReadAnswer(configs: seq<Config>, payload: Payload, pending: set<string>) returns (results: seq<Alarm>)
    ensures results == LlmResults(configs, pending, payload, payload.verdicts)
  {
    hide ByCode, ById, OfCode, Named, Shown, BoxesOf, IsAlarm, Code, Listed;
    var byCode := IndexConfigs(configs);
    var objectsByCode, objectById := IndexObjects(payload.seen);
    results := [];
    var verdicts := payload.verdicts;
    for i := 0 to |verdicts|
      invariant results == LlmResults(configs, pending, payload, verdicts[..i])
    {
      assert verdicts[..i + 1][..i] == verdicts[..i];
      if verdicts[i].None? { continue; }
      var v := verdicts[i].value;
      if !IsAlarm(v.alarm) { continue; }
      var code := Code(v.taskCode);
      if code !in byCode { continue; }
      CodesNotBlank(configs);
      if byCode[code].id !in pending { continue; }
      var boxes := SelectBoxes(v, payload, objectsByCode, objectById);
      results := results + [Alarm(byCode[code].id, byCode[code].taskCode, LargeModel, v.reason, boxes)];
    }
    assert verdicts[..|verdicts|] == verdicts;
  }
}
