/** Runs of frames through one stream task: what its memory holds, and what skipping the large
    model therefore means. */
module GateMemory {
  import opened Text
  import opened AnalysisConfig
  import opened FrameAnalysis
  import opened FrameTasks

  datatype Frame = Frame(detect: Detector, answer: Answer)

  // The memory in front of frame `n`.
  function MemoryAt(configs: seq<Config>, frames: seq<Frame>, n: nat): Memory
    requires n <= |frames|
  {
    if n == 0 then map[]
    else StreamFrame(configs, MemoryAt(configs, frames, n - 1), frames[n - 1].detect, frames[n - 1].answer).memory
  }

  function HitsAt(configs: seq<Config>, frames: seq<Frame>, n: nat): map<string, Hit>
    requires n < |frames|
  {
    FrameHits(configs, frames[n].detect)
  }

  // The detections of one algorithm in frame `n`.
  function Current(configs: seq<Config>, frames: seq<Frame>, n: nat, id: string): seq<Detection>
    requires n < |frames|
  {
    HitAt(HitsAt(configs, frames, n), id).matched
  }

  // A large-model call was attempted in frame `n` with this algorithm among those asked about.
  predicate Asked(configs: seq<Config>, frames: seq<Frame>, n: nat, id: string)
    requires n < |frames|
  {
    id in Pending(configs, HitsAt(configs, frames, n), MemoryAt(configs, frames, n))
  }

  // The last frame before `n` in which the algorithm was asked about, -1 when there is none.
  function LastAsked(configs: seq<Config>, frames: seq<Frame>, n: nat, id: string): (j: int)
    requires n <= |frames|
    ensures -1 <= j < n
  {
    if n == 0 then -1 else if Asked(configs, frames, n - 1, id) then n - 1 else LastAsked(configs, frames, n - 1, id)
  }

  lemma {:induction false} RememberAt(configs: seq<Config>, hits: map<string, Hit>, pending: set<string>, memory: Memory, id: string)
    ensures var after := Remember(configs, hits, pending, memory);
      if id in Ids(configs) && HitAt(hits, id).alarm && id in pending then id in after && after[id] == HitAt(hits, id).matched
      else (id in after <==> id in memory) && (id in memory ==> after[id] == memory[id])
  {
    if configs != [] {
      var init := configs[..|configs| - 1];
      RememberAt(init, hits, pending, memory, id);
      assert configs == init + [configs[|configs| - 1]];
    }
  }

  predicate Filtering(configs: seq<Config>) { OfMode(configs, LlmOnly) == [] }

  lemma AskedTriggers(configs: seq<Config>, frames: seq<Frame>, n: nat, id: string)
    requires n < |frames| && Filtering(configs) && Asked(configs, frames, n, id)
    ensures id in Ids(OfMode(configs, Hybrid)) && HitAt(HitsAt(configs, frames, n), id).alarm
    ensures Current(configs, frames, n, id) != []
  {
    var hits := HitsAt(configs, frames, n);
    var dets := Candidates(configs, frames[n].detect);
    HitIsOfSomeConfig(SmallConfigs(configs), dets, id);
  }

  lemma {:induction false} HitIsOfSomeConfig(configs: seq<Config>, dets: seq<Detection>, id: string)
    ensures HitAt(Hits(configs, dets), id).alarm ==> HitAt(Hits(configs, dets), id).matched != []
  {
    if configs != [] {
      var last := configs[|configs| - 1];
      HitIsOfSomeConfig(configs[..|configs| - 1], dets, id);
      if SmallAlarm(last, dets) { AlarmHasMatches(last, dets); }
    }
  }

  lemma {:induction false} LastWasAsked(configs: seq<Config>, frames: seq<Frame>, n: nat, id: string)
    requires n <= |frames| && LastAsked(configs, frames, n, id) >= 0
    ensures Asked(configs, frames, LastAsked(configs, frames, n, id), id)
  {
    hide Asked;
    if n > 0 && !Asked(configs, frames, n - 1, id) { LastWasAsked(configs, frames, n - 1, id); }
  }

  lemma FrameMemory(configs: seq<Config>, memory: Memory, f: Frame, id: string)
    requires Filtering(configs)
    ensures var hits := FrameHits(configs, f.detect);
      var asked, after := id in Pending(configs, hits, memory), StreamFrame(configs, memory, f.detect, f.answer).memory;
      && (asked ==> id in after && after[id] == HitAt(hits, id).matched)
      && (!asked ==> (id in after <==> id in memory) && (id in memory ==> after[id] == memory[id]))
  {
    hide FrameHits, AnswerResults, SmallResults, ShouldCall, Remember;
    var hits := FrameHits(configs, f.detect);
    RememberAt(OfMode(configs, Hybrid), hits, Pending(configs, hits, memory), memory, id);
  }

  /** The memory of an algorithm is exactly its detections in the last frame it was asked about;
      frames in which it was skipped leave no trace. */
  lemma {:induction false} MemoryIsLastAsked(configs: seq<Config>, frames: seq<Frame>, n: nat, id: string)
    requires n <= |frames| && Filtering(configs)
    ensures var j := LastAsked(configs, frames, n, id);
      && (id in MemoryAt(configs, frames, n) <==> j >= 0)
      && (j >= 0 ==> MemoryAt(configs, frames, n)[id] == Current(configs, frames, j, id))
  {
    hide StreamFrame, FrameHits, Pending, Filtering;
    if n > 0 {
      MemoryIsLastAsked(configs, frames, n - 1, id);
      FrameMemory(configs, MemoryAt(configs, frames, n - 1), frames[n - 1], id);
    }
  }

  // Seen with the threshold of `cfg`, frame `n` shows something else of the algorithm than frame `j`.
  predicate Differs(configs: seq<Config>, frames: seq<Frame>, n: nat, j: nat, cfg: Config)
    requires n < |frames| && j < |frames|
  {
    var now, before := Current(configs, frames, n, cfg.id), Current(configs, frames, j, cfg.id);
    |now| != |before| || exists d :: d in now && !Covered(d, before, cfg.iouThreshold)
  }

  // A hybrid configuration triggers in frame `n`.
  predicate Triggers(configs: seq<Config>, frames: seq<Frame>, n: nat, cfg: Config)
    requires n < |frames|
  {
    cfg in configs && cfg.mode == Hybrid && HitAt(HitsAt(configs, frames, n), cfg.id).alarm
  }

  /** In every run of frames an algorithm is asked about if and only if one of its hybrid
      configurations triggers, and it was never asked about before or the frame differs from the one
      it was last asked about: in the number of its detections, or by one that overlaps none of the
      same name by the threshold. */
  lemma AskedIff(configs: seq<Config>, frames: seq<Frame>, n: nat, id: string)
    requires n < |frames| && Filtering(configs)
    ensures var j := LastAsked(configs, frames, n, id);
      Asked(configs, frames, n, id) <==>
      exists cfg :: Triggers(configs, frames, n, cfg) && cfg.id == id && (j < 0 || Differs(configs, frames, n, j, cfg))
  {
    hide FrameHits, MemoryAt, LastAsked, Covered;
    var j := LastAsked(configs, frames, n, id);
    OfModeMembers(configs, Hybrid);
    MemoryIsLastAsked(configs, frames, n, id);
    if j >= 0 {
      LastWasAsked(configs, frames, n, id);
      AskedTriggers(configs, frames, j, id);
    }
    forall cfg | Triggers(configs, frames, n, cfg) && cfg.id == id
      ensures ShouldCall(Remembered(MemoryAt(configs, frames, n), id), Current(configs, frames, n, id), cfg.iouThreshold) <==>
        j < 0 || Differs(configs, frames, n, j, cfg)
    {}
  }

  /** No drift: whenever a triggered hybrid algorithm is skipped, each of its detections overlaps, by
      at least the threshold, one of the same name in the last frame the algorithm was asked about,
      and there are as many of them as then. */
  lemma SkippedIsCovered(configs: seq<Config>, frames: seq<Frame>, n: nat, cfg: Config)
    requires n < |frames| && Filtering(configs) && cfg in configs && cfg.mode == Hybrid
    requires HitAt(HitsAt(configs, frames, n), cfg.id).alarm && !Asked(configs, frames, n, cfg.id)
    ensures var j := LastAsked(configs, frames, n, cfg.id);
      && j >= 0 && |Current(configs, frames, n, cfg.id)| == |Current(configs, frames, j, cfg.id)|
      && forall d | d in Current(configs, frames, n, cfg.id) :: Covered(d, Current(configs, frames, j, cfg.id), cfg.iouThreshold)
  {
    hide Asked, HitsAt, Current, LastAsked, Covered, Filtering;
    AskedIff(configs, frames, n, cfg.id);
    assert Triggers(configs, frames, n, cfg);
  }

  lemma SelfCovered(d: Detection, dets: seq<Detection>, threshold: real)
    requires d in dets && Proper(d.box) && 0.1 <= threshold <= 0.99
    ensures Covered(d, dets, threshold)
  {}

  /** A repetition of the detections last asked about is always skipped, at every threshold that
      survives normalisation. */
  lemma RepeatIsSkipped(configs: seq<Config>, frames: seq<Frame>, n: nat, id: string)
    requires n < |frames| && Filtering(configs) && forall cfg | cfg in configs :: Normalised(cfg)
    requires LastAsked(configs, frames, n, id) >= 0
    requires Current(configs, frames, n, id) == Current(configs, frames, LastAsked(configs, frames, n, id), id)
    requires forall d | d in Current(configs, frames, n, id) :: Proper(d.box)
    ensures !Asked(configs, frames, n, id)
  {
    hide Asked, HitsAt, Current, LastAsked, Covered, Filtering;
    var dets := Current(configs, frames, n, id);
    AskedIff(configs, frames, n, id);
    forall cfg, d | cfg in configs && d in dets ensures Covered(d, dets, cfg.iouThreshold) {
      assert Normalised(cfg);
      SelfCovered(d, dets, cfg.iouThreshold);
    }
  }

  // The call made no statement: the frame could not be encoded or the reply was empty.
  predicate Unanswered(f: Frame) {
    f.answer.NoRequest? || f.answer.payload.None?
  }

  /** A call that failed silences its algorithm like one that was answered: the frame it was made for
      raises no large-model alarm, and the next frame in which the algorithm is asked about is the
      first one that triggers it and differs from that frame. */
  lemma FailedCallSilences(configs: seq<Config>, frames: seq<Frame>, n: nat, k: nat, id: string)
    requires n < k < |frames| && Filtering(configs) && Asked(configs, frames, n, id) && Unanswered(frames[n])
    requires forall m | n < m < k :: !Asked(configs, frames, m, id)
    ensures AnswerResults(configs, Pending(configs, HitsAt(configs, frames, n), MemoryAt(configs, frames, n)), frames[n].answer) == []
    ensures Asked(configs, frames, k, id) <==>
      exists cfg :: Triggers(configs, frames, k, cfg) && cfg.id == id && Differs(configs, frames, k, n, cfg)
  {
    hide Asked, Pending, HitsAt, MemoryAt, AnswerResults, Triggers, Differs, Filtering;
    NoAnswerNoAlarm(configs, Pending(configs, HitsAt(configs, frames, n), MemoryAt(configs, frames, n)), frames[n]);
    LastAskedIs(configs, frames, n, k, id);
    AskedIff(configs, frames, k, id);
  }

  lemma {:induction false} LastAskedIs(configs: seq<Config>, frames: seq<Frame>, n: nat, k: nat, id: string)
    requires n < k < |frames| && Asked(configs, frames, n, id) && forall m | n < m < k :: !Asked(configs, frames, m, id)
    ensures LastAsked(configs, frames, k, id) == n
  {
    hide Asked;
    if k > n + 1 { LastAskedIs(configs, frames, n, k - 1, id); }
  }

  /** In particular it stays silent for as long as the same detections repeat. */
  lemma {:induction false} RepeatsStaySilent(configs: seq<Config>, frames: seq<Frame>, n: nat, k: nat, id: string)
    requires n < k < |frames| && Filtering(configs) && (forall cfg | cfg in configs :: Normalised(cfg))
    requires Asked(configs, frames, n, id)
    requires forall m | n <= m <= k :: Current(configs, frames, m, id) == Current(configs, frames, n, id)
    requires forall d | d in Current(configs, frames, n, id) :: Proper(d.box)
    ensures !Asked(configs, frames, k, id) && LastAsked(configs, frames, k, id) == n
  {
    hide Asked, Current, Normalised;
    if k > n + 1 { RepeatsStaySilent(configs, frames, n, k - 1, id); }
    assert Current(configs, frames, k, id) == Current(configs, frames, n, id);
    RepeatIsSkipped(configs, frames, k, id);
  }

  const WATCH := Config("a1", "T1", Hybrid, ["person"], 0.5, 0.5, false)
  const SOMEONE := Detection("person", 0.9, Box(0, 0, 10, 10))

  /** Someone stands in the picture in two frames, the call made for the first one fails, and no call
      is made for the second: nobody hears of it. */
  lemma SilencedExample() returns (frames: seq<Frame>)
    ensures |frames| == 2 && Asked([WATCH], frames, 0, "a1") && Unanswered(frames[0])
    ensures Triggers([WATCH], frames, 1, WATCH) && !Asked([WATCH], frames, 1, "a1")
  {
    hide FrameHits, Asked, Iou, Proper, MemoryAt;
    var f := Frame((threshold: real, labels: set<string>) => [SOMEONE], NoRequest);
    frames := [f, f];
    WatchHits(f.detect);
    AskedIff([WATCH], frames, 0, "a1");
    assert Triggers([WATCH], frames, 0, WATCH);
    LastAskedIs([WATCH], frames, 0, 1, "a1");
    AskedIff([WATCH], frames, 1, "a1");
    SelfCovered(SOMEONE, [SOMEONE], 0.5);
  }

  lemma WatchMatches()
    ensures HitOf(WATCH, [SOMEONE]) == Hit(true, [SOMEONE])
  {
    hide TrimSpace;
    TrimSpaceTrims("person");
    assert "person" in WATCH.labels && Lower("person") in LowerAll(WATCH.labels);
    assert SOMEONE in [SOMEONE] && Matches(WATCH, SOMEONE);
    assert Matched(WATCH, [SOMEONE][..0]) == [] && [SOMEONE][|[SOMEONE]| - 1] == SOMEONE;
  }

  lemma WatchModes()
    ensures SmallConfigs([WATCH]) == [WATCH] && Filtering([WATCH])
  {
    assert [WATCH][..0] == [];
    assert OfMode([WATCH], LlmOnly) == OfMode([WATCH], SmallOnly) == [] && OfMode([WATCH], Hybrid) == [WATCH];
  }

  lemma WatchHits(detect: Detector)
    requires forall threshold, labels :: detect(threshold, labels) == [SOMEONE]
    ensures FrameHits([WATCH], detect) == map["a1" := Hit(true, [SOMEONE])] && Filtering([WATCH])
  {
    hide SmallConfigs, HitOf, Filtering;
    WatchModes();
    WatchMatches();
    assert Candidates([WATCH], detect) == [SOMEONE];
    assert Hits([WATCH][..0], [SOMEONE]) == map[] && [WATCH][|[WATCH]| - 1] == WATCH;
  }

  lemma NoAnswerNoAlarm(configs: seq<Config>, pending: set<string>, f: Frame)
    requires Unanswered(f)
    ensures AnswerResults(configs, pending, f.answer) == []
  {}

  /** Beside an algorithm that always asks, the memory stays empty: every hybrid one is asked about in every frame. */
  lemma {:induction false} NeverFiltersBesideLlmOnly(configs: seq<Config>, frames: seq<Frame>, n: nat, cfg: Config)
    requires n < |frames| && !Filtering(configs) && cfg in configs && cfg.mode != SmallOnly
    ensures MemoryAt(configs, frames, n) == map[] && Asked(configs, frames, n, cfg.id)
  {
    hide FrameHits, HitsAt, AnswerResults, SmallResults, Remember, Gated, OfMode;
    OfModeMembers(configs, Hybrid);
    OfModeMembers(configs, LlmOnly);
    if n > 0 { NeverFiltersBesideLlmOnly(configs, frames, n - 1, cfg); }
  }
}
