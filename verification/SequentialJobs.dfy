/** Patrol jobs and draft test jobs: the same sequential executor with retry rounds over a snapshot
    whose counters are recomputed under a lock, and the two ways a single run ends. */
module SequentialJobs {
  import opened Wrappers
  import opened Text
  import opened TestJobRows

  // One item of the snapshot; draft items never carry an event.
  datatype Entry = Entry(id: string, status: Status, event: string)

  // How one run of an item ends: its terminal entry, whether it may be retried, whether it stored an event.
  datatype Outcome = Outcome(status: Status, event: string, retry: bool, created: bool)

  predicate Blank(s: string) { TrimSpace(s) == "" }

  function IsDone(e: Entry): nat { OneIf(e.status == Success) }
  function IsLost(e: Entry): nat { OneIf(e.status == Failed) }
  function HasEvent(e: Entry): nat { OneIf(!Blank(e.event)) }

  function JobStatusOf(pending: nat, running: nat, failed: nat, success: nat): JobStatus {
    if pending > 0 then JobPending
    else if running > 0 then JobRunning
    else if failed > 0 && success > 0 then PartialFailed
    else if failed > 0 then JobFailed
    else Completed
  }

  function IsWaiting(e: Entry): nat { OneIf(e.status == Pending) }
  function IsBusy(e: Entry): nat { OneIf(e.status == Running) }

  // --- Deciding on a retry ---

  predicate Contains(s: string, sub: string) { Index(s, sub) >= 0 }

  predicate TransportFailure(requestType: string) {
    Lower(TrimSpace(requestType)) in {"connect", "read", "timeout"}
  }

  predicate ShouldRetry(success: bool, isImage: bool, requestType: string, callStatus: string, message: string) {
    && !success && isImage
    && (TransportFailure(requestType)
        || (Lower(TrimSpace(callStatus)) == "error" && Contains(Lower(TrimSpace(message)), "connection error")))
  }

  // The failure is one that may pass: the connection, or the large model's.
  ghost predicate MayPass(requestType: string, callStatus: string, message: string) {
    || Lower(TrimSpace(requestType)) == "connect" || Lower(TrimSpace(requestType)) == "read" || Lower(TrimSpace(requestType)) == "timeout"
    || (Lower(TrimSpace(callStatus)) == "error" && exists k :: OccursAt(Lower(TrimSpace(message)), "connection error", k))
  }

  /** An image is analysed again exactly after a failure that may pass. */
  lemma RetryIff(success: bool, isImage: bool, requestType: string, callStatus: string, message: string)
    ensures ShouldRetry(success, isImage, requestType, callStatus, message) <==>
      !success && isImage && MayPass(requestType, callStatus, message)
  {
    var text := Lower(TrimSpace(message));
    if k :| OccursAt(text, "connection error", k) {
      FoundSomewhere(text, "connection error", 0, k);
    }
    if Index(text, "connection error") >= 0 { assert OccursAt(text, "connection error", Index(text, "connection error")); }
  }

  lemma {:induction false} FoundSomewhere(s: string, sub: string, i: nat, k: int)
    requires i <= k && OccursAt(s, sub, k)
    ensures FindFrom(s, sub, i) >= 0
    decreases k - i
  {
    if i < k { FoundSomewhere(s, sub, i + 1, k); }
  }

  // --- One patrol run ---

  // What happens around one run, in the order the run asks for it.
  datatype PatrolRun = PatrolRun(known: bool, captured: bool, saved: bool, withinQuota: bool, requestType: string, callStatus: string,
                                 requestFailed: bool, viewOk: bool, message: string, alarm: bool, shotSaved: bool,
                                 event: Option<string>)

  function PatrolFailure(r: PatrolRun, answered: bool): Outcome {
    Outcome(Failed, "", answered && ShouldRetry(false, true, r.requestType, r.callStatus, r.message), false)
  }

  function PatrolOutcome(r: PatrolRun): Outcome {
    if !r.known || !r.captured || !r.saved || !r.withinQuota then PatrolFailure(r, false)
    else if r.requestFailed || !r.viewOk then PatrolFailure(r, true)
    else if !r.alarm then Outcome(Success, "", false, false)
    else if !r.shotSaved || r.event.None? then PatrolFailure(r, true)
    else Outcome(Success, r.event.value, false, true)
  }

  // Event ids are new and never blank.
  predicate FreshEvent(r: PatrolRun) {
    r.event.Some? ==> !Blank(r.event.value)
  }

  // What the executor relies on.
  predicate Sound(o: Outcome) {
    && Terminal(o.status) && (o.created <==> !Blank(o.event)) && (o.created ==> o.status == Success && !o.retry)
  }

  /** A run that stored an event has succeeded and is never retried. */
  lemma PatrolOutcomeSound(r: PatrolRun)
    requires FreshEvent(r)
    ensures Sound(PatrolOutcome(r))
  {}

  /** A run succeeds exactly when the picture was taken, analysed and answered and, if it raises an alarm,
      its event was stored; it then shows that event, and stores none otherwise. Only a run that got as
      far as the request may be retried. */
  lemma PatrolEnds(r: PatrolRun)
    ensures var o, asked := PatrolOutcome(r), r.known && r.captured && r.saved && r.withinQuota;
      && (o.status == Success <==> asked && !r.requestFailed && r.viewOk && (r.alarm ==> r.shotSaved && r.event.Some?))
      && (o.status == Failed <==> o.status != Success)
      && (o.created <==> o.status == Success && r.alarm)
      && (if o.created then r.event == Some(o.event) else o.event == "")
      && (o.retry <==> asked && o.status == Failed && MayPass(r.requestType, r.callStatus, r.message))
  {
    hide ShouldRetry, MayPass;
    RetryIff(false, true, r.requestType, r.callStatus, r.message);
  }

  // --- One draft run ---

  const NO_RESULT := "no valid result"
  const REQUEST_FAILED := "request failed: "

  // An answer to an image request: absent, unsuccessful with a message, or judged failed by the large model.
  datatype Reply = NoReply | Refused(message: string) | LlmFailed(message: string) | Accepted

  datatype ImageRun = ImageOverQuota(message: string) | ImageUnreadable | ImageRequestFailed(error: string) | ImageAnswered(reply: Reply)

  datatype VideoRun =
    | VideoOverQuota(message: string) | VideoUnreadable | VideoTooLarge | VideoBadMeta | VideoBadLength | VideoNoPrompt
    | VideoRequestFailed | VideoAnswered(success: bool)

  // The part of a run's result that decides how a draft item ends. Result texts are abbreviated;
  // only whether they are blank matters.
  datatype TestResult = TestResult(success: bool, error: string)

  function OrElse(message: string, default: string): string {
    if Blank(message) then default else TrimSpace(message)
  }

  function ImageResult(r: ImageRun): TestResult {
    match r
    case ImageOverQuota(message) => TestResult(false, message)
    case ImageUnreadable => TestResult(false, "")
    case ImageRequestFailed(error) => TestResult(false, REQUEST_FAILED + error)
    case ImageAnswered(NoReply) => TestResult(false, NO_RESULT)
    case ImageAnswered(Refused(message)) => TestResult(false, OrElse(message, NO_RESULT))
    case ImageAnswered(LlmFailed(message)) => TestResult(false, OrElse(message, NO_RESULT))
    case ImageAnswered(Accepted) => TestResult(true, "")
  }

  // Only the quota branch of the video test fills in the error message.
  function VideoResult(r: VideoRun): TestResult {
    match r
    case VideoOverQuota(message) => TestResult(false, message)
    case VideoAnswered(success) => TestResult(success, "")
    case _ => TestResult(false, "")
  }

  // The runs leave the status blank, so the error message alone decides.
  function DraftStatus(result: TestResult): Status {
    if Blank(result.error) then Success else Failed
  }

  function DraftOutcome(result: TestResult, isImage: bool, requestType: string, callStatus: string): Outcome {
    Outcome(DraftStatus(result), "", ShouldRetry(result.success, isImage, requestType, callStatus, result.error), false)
  }

  lemma DraftOutcomeSound(result: TestResult, isImage: bool, requestType: string, callStatus: string)
    ensures Sound(DraftOutcome(result, isImage, requestType, callStatus))
  {}

  /** A draft run ends as its error message says and is retried like any image. */
  lemma DraftEnds(result: TestResult, isImage: bool, requestType: string, callStatus: string)
    ensures var o := DraftOutcome(result, isImage, requestType, callStatus);
      && (o.status == Success <==> TrimSpace(result.error) == "") && (o.status == Failed <==> TrimSpace(result.error) != "")
      && (o.retry <==> !result.success && isImage && MayPass(requestType, callStatus, result.error))
  {
    hide ShouldRetry, MayPass;
    RetryIff(result.success, isImage, requestType, callStatus, result.error);
  }

  /** An image test succeeds exactly with an accepted answer, a video test with a positive one. */
  lemma DraftTestsMean(image: ImageRun, video: VideoRun)
    ensures ImageResult(image).success <==> image == ImageAnswered(Accepted)
    ensures VideoResult(video).success <==> video == VideoAnswered(true)
    ensures forall m | image in {ImageAnswered(Refused(m)), ImageAnswered(LlmFailed(m))} ::
      ImageResult(image).error == if TrimSpace(m) != "" then TrimSpace(m) else NO_RESULT
  {}

  lemma NotBlank(s: string)
    requires Trimmed(s) && s != ""
    ensures !Blank(s)
  {}

  lemma VisibleStart(s: string)
    requires s != "" && 33 <= s[0] as int <= 126
    ensures !Blank(s)
  {
    assert TrimLeft(s) == s;
    KeepsStart(s);
  }

  lemma {:induction false} KeepsStart(s: string)
    requires s != "" && 33 <= s[0] as int <= 126
    ensures TrimRight(s) != ""
    decreases |s|
  {
    var n := TrailingSpace(s);
    if n > 0 {
      assert n < |s|;
      assert s[..|s| - n][0] == s[0];
      KeepsStart(s[..|s| - n]);
    }
  }

  /** A draft image is recorded as a success although its test failed exactly when the image could
      not be read: that branch leaves the error message blank. */
  lemma DraftImageIff(r: ImageRun)
    requires r.ImageOverQuota? ==> !Blank(r.message)
    ensures (DraftStatus(ImageResult(r)) == Success <==> ImageResult(r).success) <==> r != ImageUnreadable
  {
    assert Blank("");
    NotBlank(NO_RESULT);
    match r {
      case ImageRequestFailed(error) => VisibleStart(REQUEST_FAILED + error);
      case ImageAnswered(Refused(message)) => TrimmedMessage(message);
      case ImageAnswered(LlmFailed(message)) => TrimmedMessage(message);
      case _ =>
    }
  }

  lemma TrimmedMessage(message: string)
    ensures !Blank(OrElse(message, NO_RESULT))
  {
    NotBlank(NO_RESULT);
    TrimSpaceTrims(message);
    TrimSpaceTrims(TrimSpace(message));
  }

  /** A draft video is recorded as failed only when the quota is used up; of the other ends of its
      test only a success is recorded as what it was. */
  lemma DraftVideoIff(r: VideoRun)
    requires r.VideoOverQuota? ==> !Blank(r.message)
    ensures DraftStatus(VideoResult(r)) == Failed <==> r.VideoOverQuota?
    ensures (DraftStatus(VideoResult(r)) == Success <==> VideoResult(r).success) <==> r.VideoOverQuota? || r == VideoAnswered(true)
  {}

  // --- The executor ---

  predicate UniqueEntries(items: seq<Entry>) {
    forall i, j | 0 <= i < j < |items| :: items[i].id != items[j].id
  }

  predicate Distinct(ids: seq<string>) {
    forall i, j | 0 <= i < j < |ids| :: ids[i] != ids[j]
  }

  // The device ids of a patrol request: trimmed, each at its first place, without blanks.
  function UniqueOf(raw: seq<string>): seq<string> {
    if raw == [] then []
    else
      var rest, v := UniqueOf(raw[..|raw| - 1]), TrimSpace(raw[|raw| - 1]);
      if v == "" || v in rest then rest else rest + [v]
  }

  method UniqueStrings(raw: seq<string>) returns (ids: seq<string>)
    ensures ids == UniqueOf(raw) && Distinct(ids) && forall id | id in ids :: !Blank(id)
    ensures forall id :: id in ids <==> id != "" && exists i :: 0 <= i < |raw| && TrimSpace(raw[i]) == id
  {
    ids := [];
    var seen: set<string> := {};
    for i := 0 to |raw|
      invariant ids == UniqueOf(raw[..i]) && Distinct(ids) && (forall id | id in ids :: !Blank(id))
      invariant forall id :: id in seen <==> id in ids
      invariant forall id :: id in ids <==> id != "" && exists j :: 0 <= j < i && TrimSpace(raw[j]) == id
    {
      assert raw[..i + 1][..i] == raw[..i];
      var v := TrimSpace(raw[i]);
      if v == "" || v in seen { continue; }
      TrimSpaceTrims(raw[i]);
      TrimSpaceTrims(v);
      seen := seen + {v};
      ids := ids + [v];
    }
    assert raw[..|raw|] == raw;
  }

  predicate Known(items: seq<Entry>, ids: seq<string>) {
    forall j | 0 <= j < |ids| :: HasEntry(items, ids[j])
  }

  predicate HasEntry(items: seq<Entry>, id: string) {
    exists i :: 0 <= i < |items| && items[i].id == id
  }

  // Items not yet run are pending, those waiting for their run's end or another round are running;
  // neither has an event, and all others are terminal.
  predicate Placed(items: seq<Entry>, unrun: set<string>, waiting: set<string>) {
    forall i | 0 <= i < |items| :: PlacedEntry(items[i], unrun, waiting)
  }

  predicate PlacedEntry(e: Entry, unrun: set<string>, waiting: set<string>) {
    && (e.id in unrun ==> e.status == Pending && Blank(e.event))
    && (e.id in waiting ==> e.status == Running && Blank(e.event))
    && (e.id !in unrun && e.id !in waiting ==> Terminal(e.status))
  }

  // Only one entry changes, and it keeps its id.
  predicate OnlyChanged(before: seq<Entry>, after: seq<Entry>, id: string) {
    && |after| == |before|
    && forall i | 0 <= i < |after| :: after[i].id == before[i].id && (after[i].id != id ==> after[i] == before[i])
  }

  // The ids are kept, and so are the items outside the job.
  predicate KeepsOthers(before: seq<Entry>, after: seq<Entry>, ids: seq<string>) {
    && |after| == |before|
    && forall i | 0 <= i < |after| :: after[i].id == before[i].id && (after[i].id !in ids ==> after[i] == before[i])
  }

  lemma KeepsMore(before: seq<Entry>, middle: seq<Entry>, after: seq<Entry>, id: string, ids: seq<string>)
    requires KeepsOthers(before, middle, ids) && OnlyChanged(middle, after, id) && id in ids
    ensures KeepsOthers(before, after, ids)
  {}

  lemma StillKnown(before: seq<Entry>, after: seq<Entry>, ids: seq<string>, id: string)
    requires Known(before, ids) && KeepsOthers(before, after, ids) && id in ids
    ensures HasEntry(after, id)
  {}

  predicate AllDone(items: seq<Entry>) {
    forall i | 0 <= i < |items| :: Terminal(items[i].status)
  }

  lemma NothingLeft(items: seq<Entry>)
    requires Placed(items, {}, {})
    ensures AllDone(items)
  {}

  function Members(ids: seq<string>): set<string> {
    set id | id in ids
  }

  function Runs(runs: map<string, nat>, id: string): nat {
    if id in runs then runs[id] else 0
  }

  ghost predicate RunsAtMost(runs: map<string, nat>, n: nat) {
    forall id :: Runs(runs, id) <= n
  }

  ghost predicate RunsExactly(runs: map<string, nat>, ids: seq<string>, n: nat) {
    forall id | id in ids :: Runs(runs, id) == n
  }

  lemma RanOnceMore(runs: map<string, nat>, id: string, rest: seq<string>, others: seq<string>, n: nat)
    requires Runs(runs, id) == n && id !in rest && id !in others && RunsAtMost(runs, n + 1)
    requires RunsExactly(runs, rest, n) && RunsExactly(runs, others, n + 1)
    ensures var after := runs[id := Runs(runs, id) + 1];
      RunsExactly(after, rest, n) && RunsExactly(after, others, n + 1) && Runs(after, id) == n + 1 && RunsAtMost(after, n + 1)
  {
    var after := runs[id := Runs(runs, id) + 1];
    forall other ensures Runs(after, other) == if other == id then n + 1 else Runs(runs, other) {}
  }

  lemma AtMostMore(runs: map<string, nat>, n: nat)
    requires RunsAtMost(runs, n)
    ensures RunsAtMost(runs, n + 1)
  {}

  lemma NoneRan(runs: map<string, nat>, n: nat)
    ensures RunsExactly(runs, [], n)
  {}

  lemma FirstRan(runs: map<string, nat>, ids: seq<string>, k: nat, n: nat)
    requires k < |ids| && RunsExactly(runs, ids[k..], n)
    ensures Runs(runs, ids[k]) == n && RunsExactly(runs, ids[k + 1..], n)
  {}

  lemma OneMoreRan(runs: map<string, nat>, ids: seq<string>, id: string, n: nat)
    requires RunsExactly(runs, ids, n) && Runs(runs, id) == n
    ensures RunsExactly(runs, ids + [id], n)
  {}

  // An item shows an event exactly when one was stored for it, and never more than one.
  ghost predicate EventsMatch(items: seq<Entry>, events: map<string, nat>) {
    forall i | 0 <= i < |items| :: Runs(events, items[i].id) == HasEvent(items[i])
  }

  lemma EventsUpdate(items: seq<Entry>, events: map<string, nat>, k: nat, e: Entry, n: nat)
    requires k < |items| && e.id == items[k].id && UniqueEntries(items) && EventsMatch(items, events)
    requires HasEvent(e) == HasEvent(items[k]) + n
    ensures EventsMatch(items[k := e], events[e.id := Runs(events, e.id) + n])
  {}

  lemma EventsKept(items: seq<Entry>, events: map<string, nat>, k: nat, e: Entry)
    requires k < |items| && e.id == items[k].id && EventsMatch(items, events) && HasEvent(e) == HasEvent(items[k])
    ensures EventsMatch(items[k := e], events)
  {}

  lemma PlacedAt(items: seq<Entry>, k: nat, unrun: set<string>, waiting: set<string>)
    requires k < |items| && Placed(items, unrun, waiting)
    ensures PlacedEntry(items[k], unrun, waiting)
  {}

  lemma OnlyOne(items: seq<Entry>, k: nat)
    requires UniqueEntries(items) && k < |items|
    ensures forall e | e in items && e.id == items[k].id :: e == items[k]
  {}

  lemma ConcludedEntry(e: Entry, o: Outcome, again: bool, unrun: set<string>, waiting: set<string>)
    requires PlacedEntry(e, unrun, waiting) && e.id in waiting && e.id !in unrun && Sound(o) && (again ==> o.retry)
    ensures var after := if again then e.(status := Running, event := "") else Entry(e.id, o.status, o.event);
      && PlacedEntry(after, unrun, if again then waiting else waiting - {e.id})
      && HasEvent(after) == HasEvent(e) + OneIf(o.created)
  {
    assert Blank("");
  }

  lemma PlacedUpdate(items: seq<Entry>, k: nat, e: Entry, unrun: set<string>, waiting: set<string>, unrun2: set<string>, waiting2: set<string>)
    requires k < |items| && e.id == items[k].id && UniqueEntries(items) && Placed(items, unrun, waiting)
    requires unrun2 - {e.id} == unrun - {e.id} && waiting2 - {e.id} == waiting - {e.id} && PlacedEntry(e, unrun2, waiting2)
    ensures Placed(items[k := e], unrun2, waiting2) && UniqueEntries(items[k := e]) && OnlyChanged(items, items[k := e], e.id)
  {
    hide Blank;
    forall i | 0 <= i < |items| && i != k ensures PlacedEntry(items[i], unrun2, waiting2) {
      assert PlacedEntry(items[i], unrun, waiting);
      var id := items[i].id;
      assert id != e.id;
      assert (id in unrun2 <==> id in unrun2 - {e.id}) && (id in waiting2 <==> id in waiting2 - {e.id});
    }
  }

  lemma HeadOfRest(ids: seq<string>, k: nat)
    requires k < |ids| && Distinct(ids)
    ensures ids[k..] == [ids[k]] + ids[k + 1..] && ids[k] !in ids[k + 1..]
    ensures Members(ids[k..]) == {ids[k]} + Members(ids[k + 1..])
  {}

  // The outcome of an item's run in a round; the first pass is round 0.
  type Oracle = (string, nat) -> Outcome

  ghost predicate SoundOracle(oracle: Oracle) {
    forall id: string, round: nat :: Sound(oracle(id, round))
  }

  // Which of these ids a round leaves for the next one, in order.
  function Retried(ids: seq<string>, round: nat, limit: nat, oracle: Oracle): seq<string> {
    if ids == [] then []
    else
      Retried(ids[..|ids| - 1], round, limit, oracle) +
      if round < limit && oracle(ids[|ids| - 1], round).retry then [ids[|ids| - 1]] else []
  }

  /** An id is left for the next round exactly when its run asks for one and a round is still allowed. */
  lemma {:induction false} RetriedIff(ids: seq<string>, round: nat, limit: nat, oracle: Oracle, id: string)
    ensures id in Retried(ids, round, limit, oracle) <==> id in ids && round < limit && oracle(id, round).retry
  {
    if ids != [] {
      var init, last := ids[..|ids| - 1], ids[|ids| - 1];
      assert ids == init + [last];
      RetriedIff(init, round, limit, oracle, id);
    }
  }

  // The round of an item's last run, when it gets as far as `round`.
  function LastRound(id: string, round: nat, limit: nat, oracle: Oracle): nat
    requires round <= limit
    decreases limit - round
  {
    if round < limit && oracle(id, round).retry then LastRound(id, round + 1, limit, oracle) else round
  }

  /** The last run is the first that asks for no other, or the one of the last round. */
  lemma {:induction false} LastRoundIff(id: string, from: nat, k: nat, limit: nat, oracle: Oracle)
    requires from <= limit && from <= k
    ensures LastRound(id, from, limit, oracle) == k <==>
      k <= limit && (forall r: nat | from <= r < k :: oracle(id, r).retry) && (k < limit ==> !oracle(id, k).retry)
    decreases limit - from
  {
    if from < limit && oracle(id, from).retry && from < k { LastRoundIff(id, from + 1, k, limit, oracle); }
    LastRoundFrom(id, from, limit, oracle);
  }

  lemma {:induction false} LastRoundFrom(id: string, from: nat, limit: nat, oracle: Oracle)
    requires from <= limit
    ensures from <= LastRound(id, from, limit, oracle) <= limit
    ensures from < limit && oracle(id, from).retry ==> from < LastRound(id, from, limit, oracle)
    decreases limit - from
  {
    if from < limit && oracle(id, from).retry { LastRoundFrom(id, from + 1, limit, oracle); }
  }

  // The item shows the end of its last run, and was run once in each round up to it.
  predicate IsEnd(e: Entry, runs: map<string, nat>, limit: nat, oracle: Oracle) {
    var last := LastRound(e.id, 0, limit, oracle);
    var o := oracle(e.id, last);
    e == Entry(e.id, o.status, o.event) && Runs(runs, e.id) == last + 1
  }

  predicate EndsAt(items: seq<Entry>, runs: map<string, nat>, ids: seq<string>, open: set<string>, limit: nat, oracle: Oracle) {
    forall i | 0 <= i < |items| && items[i].id in ids && items[i].id !in open :: IsEnd(items[i], runs, limit, oracle)
  }

  // Items in the list have not seen their last run yet.
  predicate GoOn(ids: seq<string>, round: nat, limit: nat, oracle: Oracle) {
    round <= limit && forall id | id in ids :: LastRound(id, 0, limit, oracle) == LastRound(id, round, limit, oracle)
  }

  lemma OneMoreGoes(ids: seq<string>, id: string, round: nat, limit: nat, oracle: Oracle)
    requires ids != [] ==> GoOn(ids, round, limit, oracle)
    requires round <= limit && LastRound(id, 0, limit, oracle) == LastRound(id, round, limit, oracle)
    ensures GoOn(ids + [id], round, limit, oracle)
  {}

  lemma EndsKept(before: seq<Entry>, after: seq<Entry>, runs: map<string, nat>, id: string, ids: seq<string>, open: set<string>,
                 limit: nat, oracle: Oracle)
    requires OnlyChanged(before, after, id) && EndsAt(before, runs, ids, open, limit, oracle) && id in open
    ensures EndsAt(after, runs, ids, open, limit, oracle)
  {
    hide IsEnd;
  }

  lemma EndStep(before: seq<Entry>, after: seq<Entry>, runs: map<string, nat>, id: string, ids: seq<string>, open: set<string>,
                round: nat, limit: nat, oracle: Oracle)
    requires OnlyChanged(before, after, id) && EndsAt(before, runs, ids, open, limit, oracle) && id in open
    requires round <= limit && LastRound(id, 0, limit, oracle) == LastRound(id, round, limit, oracle) && Runs(runs, id) == round
    requires var o := oracle(id, round);
      !(round < limit && o.retry) ==> forall e | e in after && e.id == id :: e == Entry(id, o.status, o.event)
    ensures var again := round < limit && oracle(id, round).retry;
      && EndsAt(after, runs[id := Runs(runs, id) + 1], ids, if again then open else open - {id}, limit, oracle)
      && (again ==> LastRound(id, 0, limit, oracle) == LastRound(id, round + 1, limit, oracle))
  {
    var now := runs[id := Runs(runs, id) + 1];
    var left := if round < limit && oracle(id, round).retry then open else open - {id};
    forall i | 0 <= i < |after| && after[i].id in ids && after[i].id !in left ensures IsEnd(after[i], now, limit, oracle) {
      if after[i].id == id {
        assert after[i] in after;
      } else {
        assert IsEnd(before[i], runs, limit, oracle);
      }
    }
  }

  class Job {
    var items: seq<Entry>
    var successCount: nat
    var failedCount: nat
    var alarmCount: nat
    var status: JobStatus
    ghost var unrun: set<string>
    ghost var waiting: set<string>
    ghost var runs: map<string, nat>
    ghost var created: nat
    ghost var events: map<string, nat>

    // What holds whenever the lock is free.
    ghost predicate Valid()
      reads this
    {
      && UniqueEntries(items) && unrun !! waiting && Placed(items, unrun, waiting)
      && successCount == Sum(items, IsDone) && failedCount == Sum(items, IsLost)
      && alarmCount == Sum(items, HasEvent) == created && EventsMatch(items, events)
    }

    // What the last recomputation left in the status.
    ghost predicate StatusFits()
      reads this
    {
      status == JobStatusOf(Sum(items, IsWaiting), Sum(items, IsBusy), failedCount, successCount)
    }

    // A snapshot as created: `ids` wait for their run, uploads that could not be saved have failed.
    constructor (entries: seq<Entry>, ids: seq<string>)
      requires UniqueEntries(entries) && forall e | e in entries :: e.event == "" && e.status == if e.id in ids then Pending else Failed
      ensures Valid() && items == entries && unrun == Members(ids) && waiting == {} && runs == map[] && created == 0
    {
      items, runs, created, events := entries, map[], 0, map[];
      unrun, waiting := Members(ids), {};
      successCount, alarmCount, status := 0, 0, JobPending;
      failedCount := Sum(entries, IsLost);
      assert Blank("");
      ZeroSum(entries, IsDone);
      ZeroSum(entries, HasEvent);
    }

    method Locate(id: string) returns (k: nat)
      requires HasEntry(items, id)
      ensures k < |items| && items[k].id == id
    {
      k := 0;
      while items[k].id != id
        invariant k < |items| && forall j | 0 <= j < k :: items[j].id != id
        decreases |items| - k
      {
        k := k + 1;
      }
    }

    method Recompute()
      modifies this`successCount, this`failedCount, this`alarmCount, this`status
      ensures successCount == Sum(items, IsDone) && failedCount == Sum(items, IsLost) && alarmCount == Sum(items, HasEvent)
      ensures StatusFits()
    {
      var success, failed, running, pending, alarms := 0, 0, 0, 0, 0;
      for i := 0 to |items|
        invariant success + Sum(items[i..], IsDone) == Sum(items, IsDone) && failed + Sum(items[i..], IsLost) == Sum(items, IsLost)
        invariant running + Sum(items[i..], IsBusy) == Sum(items, IsBusy) && pending + Sum(items[i..], IsWaiting) == Sum(items, IsWaiting)
        invariant alarms + Sum(items[i..], HasEvent) == Sum(items, HasEvent)
      {
        assert items[i..][1..] == items[i + 1..];
        if !Blank(items[i].event) { alarms := alarms + 1; }
        match items[i].status {
          case Pending => pending := pending + 1;
          case Running => running := running + 1;
          case Failed => failed := failed + 1;
          case Success => success := success + 1;
        }
      }
      successCount, failedCount, alarmCount := success, failed, alarms;
      status := JobStatusOf(pending, running, failed, success);
    }

    // The locked section before a first run; the counters are not recomputed and need not be.
    method MarkRunning(id: string)
      requires Valid() && HasEntry(items, id) && id in unrun
      modifies this`items, this`unrun, this`waiting
      ensures Valid() && OnlyChanged(old(items), items, id)
      ensures unrun == old(unrun) - {id} && waiting == old(waiting) + {id}
    {
      var k := Locate(id);
      assert PlacedEntry(items[k], unrun, waiting);
      var e := items[k].(status := Running);
      SumUpdate(items, k, e, IsDone);
      SumUpdate(items, k, e, IsLost);
      SumUpdate(items, k, e, HasEvent);
      PlacedUpdate(items, k, e, unrun, waiting, unrun - {id}, waiting + {id});
      EventsKept(items, events, k, e);
      items := items[k := e];
      unrun, waiting := unrun - {id}, waiting + {id};
    }

    // The locked section after a run: keep the item running for another round or store its end.
    method Conclude(id: string, o: Outcome, round: nat, limit: nat) returns (again: bool)
      requires Valid() && Sound(o) && HasEntry(items, id) && id in waiting
      modifies this`items, this`successCount, this`failedCount, this`alarmCount, this`status, this`waiting, this`created, this`events, this`runs
      ensures Valid() && OnlyChanged(old(items), items, id) && again == (round < limit && o.retry)
      ensures !again ==> forall e | e in items && e.id == id :: e == Entry(id, o.status, o.event)
      ensures waiting == if again then old(waiting) else old(waiting) - {id}
      ensures created == old(created) + OneIf(o.created)
      ensures runs == old(runs)[id := Runs(old(runs), id) + 1]
      ensures StatusFits()
    {
      hide Placed, UniqueEntries, Sum, OnlyChanged, TrimSpace, PlacedEntry, Blank, Sound, EventsMatch, HasEvent, JobStatusOf, StatusFits, Runs, OneIf, HasEntry;
      again := round < limit && o.retry;
      var k := Locate(id);
      PlacedAt(items, k, unrun, waiting);
      var e := if again then items[k].(status := Running, event := "") else Entry(id, o.status, o.event);
      ConcludedEntry(items[k], o, again, unrun, waiting);
      SumUpdate(items, k, e, HasEvent);
      EventsUpdate(items, events, k, e, OneIf(o.created));
      PlacedUpdate(items, k, e, unrun, waiting, unrun, if again then waiting else waiting - {id});
      items := items[k := e];
      if !again { waiting := waiting - {id}; }
      runs := runs[id := Runs(runs, id) + 1];
      created := created + OneIf(o.created);
      events := events[id := Runs(events, id) + OneIf(o.created)];
      Recompute();
      OnlyOne(items, k);
    }

    /** The whole job: at its end every item is terminal after at most 1 + limit runs and shows the end of
        its last run, the counters are the tallies, and the alarms counted are the events created. */
    method Execute(ids: seq<string>, limit: nat, oracle: Oracle)
      requires Valid() && Distinct(ids) && Known(items, ids) && unrun == Members(ids) && waiting == {}
      requires runs == map[] && created == 0 && SoundOracle(oracle)
      modifies this
      ensures Valid() && AllDone(items) && KeepsOthers(old(items), items, ids)
      ensures RunsAtMost(runs, 1 + limit)
      ensures successCount + failedCount == |items| && alarmCount == created
      ensures ids != [] ==> status == JobStatusOf(0, 0, failedCount, successCount)
      ensures forall i | 0 <= i < |items| :: Runs(events, items[i].id) <= 1
      ensures forall i | 0 <= i < |items| && items[i].id in ids :: IsEnd(items[i], runs, limit, oracle)
    {
      hide Placed, UniqueEntries, Sum, IsEnd, EndsAt, StatusFits, KeepsOthers, SoundOracle, Known, RunsExactly, EventsMatch, GoOn;
      status := JobRunning;
      var pending := FirstPass(ids, limit, oracle);
      ghost var middle := items;
      AllKnown(old(items), middle, ids);
      RetryRounds(ids, pending, limit, oracle);
      KeepsBoth(old(items), middle, items, ids);
      Finished(items, runs, ids, limit, oracle);
    }

    // Runs every item once and returns those to run again.
    method FirstPass(ids: seq<string>, limit: nat, oracle: Oracle) returns (pending: seq<string>)
      requires Valid() && Distinct(ids) && Known(items, ids) && unrun == Members(ids) && waiting == {}
      requires runs == map[] && SoundOracle(oracle)
      modifies this
      ensures Valid() && KeepsOthers(old(items), items, ids) && (ids != [] ==> StatusFits())
      ensures pending == Retried(ids, 0, limit, oracle) && unrun == {} && waiting == Members(pending)
      ensures Distinct(pending) && (forall id | id in pending :: id in ids) && (pending != [] ==> GoOn(pending, 1, limit, oracle))
      ensures RunsExactly(runs, pending, 1) && RunsAtMost(runs, 1) && EndsAt(items, runs, ids, waiting, limit, oracle)
    {
      hide Valid, EndsAt, StatusFits, KeepsOthers, SoundOracle, Known, RunsExactly, RunsAtMost, GoOn, LastRound;
      pending := [];
      NoneStarted(items, ids, limit, oracle);
      assert ids[0..] == ids;
      for k := 0 to |ids|
        invariant pending == Retried(ids[..k], 0, limit, oracle) && (pending != [] ==> GoOn(pending, 1, limit, oracle))
        invariant EndsAt(items, runs, ids, unrun + waiting, limit, oracle)
        invariant Valid() && KeepsOthers(old(items), items, ids) && (k > 0 ==> StatusFits())
        invariant unrun == Members(ids[k..]) && waiting == Members(pending)
        invariant Distinct(pending) && (forall id | id in pending :: id in ids[..k])
        invariant RunsExactly(runs, ids[k..], 0) && RunsExactly(runs, pending, 1) && RunsAtMost(runs, 1)
      {
        var id := ids[k];
        HeadOfRest(ids, k);
        FirstRan(runs, ids, k, 0);
        RanOnceMore(runs, id, ids[k + 1..], pending, 0);
        assert ids[..k + 1][..k] == ids[..k];
        var again := FirstRun(id, ids, limit, oracle, old(items));
        if again {
          OneMoreRan(runs, pending, id, 1);
          OneMoreGoes(pending, id, 1, limit, oracle);
          pending := pending + [id];
        }
      }
      assert ids[..|ids|] == ids && unrun + waiting == waiting;
    }

    // What follows once nothing is left to run.
    lemma Finished(entries: seq<Entry>, runs: map<string, nat>, ids: seq<string>, limit: nat, oracle: Oracle)
      requires Valid() && entries == items && unrun == {} && waiting == {} && EndsAt(entries, runs, ids, {}, limit, oracle)
      ensures AllDone(items) && successCount + failedCount == |items| && alarmCount == created
      ensures StatusFits() ==> status == JobStatusOf(0, 0, failedCount, successCount)
      ensures forall i | 0 <= i < |items| :: Runs(events, items[i].id) <= 1
      ensures forall i | 0 <= i < |items| && items[i].id in ids :: IsEnd(items[i], runs, limit, oracle)
    {
      hide IsEnd;
      NothingLeft(items);
      AllCounted(items);
      NoneWaiting(items);
    }

    // The body of the first pass.
    method FirstRun(id: string, ids: seq<string>, limit: nat, oracle: Oracle, ghost before: seq<Entry>) returns (again: bool)
      requires Valid() && SoundOracle(oracle) && id in unrun && id in ids && Known(before, ids) && KeepsOthers(before, items, ids)
      requires EndsAt(items, runs, ids, unrun + waiting, limit, oracle) && Runs(runs, id) == 0
      modifies this
      ensures Valid() && StatusFits() && KeepsOthers(before, items, ids) && again == (0 < limit && oracle(id, 0).retry)
      ensures unrun == old(unrun) - {id} && waiting == if again then old(waiting) + {id} else old(waiting)
      ensures runs == old(runs)[id := Runs(old(runs), id) + 1]
      ensures EndsAt(items, runs, ids, unrun + waiting, limit, oracle)
      ensures again ==> LastRound(id, 0, limit, oracle) == LastRound(id, 1, limit, oracle)
    {
      hide Placed, KeepsOthers, OnlyChanged, Known, HasEntry, Sound, Sum, UniqueEntries, StatusFits, EndsAt;
      var o := oracle(id, 0);
      ghost var open := unrun + waiting;
      StillKnown(before, items, ids, id);
      MarkRunning(id);
      KeepsMore(before, old(items), items, id, ids);
      EndsKept(old(items), items, runs, id, ids, open, limit, oracle);
      StillKnown(before, items, ids, id);
      ghost var middle, ran := items, runs;
      again := Conclude(id, o, 0, limit);
      KeepsMore(before, middle, items, id, ids);
      EndStep(middle, items, ran, id, ids, open, 0, limit, oracle);
      assert unrun + waiting == if again then open else open - {id};
    }

    method RetryRounds(ids: seq<string>, first: seq<string>, limit: nat, oracle: Oracle)
      requires Valid() && unrun == {} && waiting == Members(first) && Distinct(first) && Known(items, ids)
      requires (forall id | id in first :: id in ids) && SoundOracle(oracle) && (first != [] ==> GoOn(first, 1, limit, oracle))
      requires RunsExactly(runs, first, 1) && RunsAtMost(runs, 1) && EndsAt(items, runs, ids, waiting, limit, oracle)
      modifies this
      ensures old(StatusFits()) ==> StatusFits()
      ensures Valid() && unrun == waiting == {} && KeepsOthers(old(items), items, ids) && RunsAtMost(runs, 1 + limit)
      ensures EndsAt(items, runs, ids, {}, limit, oracle)
    {
      hide Placed, UniqueEntries, Sum, EndsAt, Valid, StatusFits;
      var pending, round := first, 1;
      while round <= limit && |pending| > 0
        invariant Valid() && unrun == {} && waiting == Members(pending) && Distinct(pending)
        invariant old(StatusFits()) ==> StatusFits()
        invariant KeepsOthers(old(items), items, ids) && forall id | id in pending :: id in ids
        invariant 1 <= round <= limit + 1 && RunsExactly(runs, pending, round) && RunsAtMost(runs, round)
        invariant (pending != [] ==> GoOn(pending, round, limit, oracle)) && EndsAt(items, runs, ids, waiting, limit, oracle)
        decreases limit + 1 - round
      {
        pending := RetryRound(ids, pending, round, limit, oracle, old(items));
        round := round + 1;
      }
    }

    method RetryRound(ids: seq<string>, todo: seq<string>, round: nat, limit: nat, oracle: Oracle, ghost before: seq<Entry>)
      returns (next: seq<string>)
      requires Valid() && unrun == {} && waiting == Members(todo) && Distinct(todo) && 1 <= round <= limit
      requires Known(before, ids) && KeepsOthers(before, items, ids) && (forall id | id in todo :: id in ids) && SoundOracle(oracle)
      requires RunsExactly(runs, todo, round) && RunsAtMost(runs, round)
      requires GoOn(todo, round, limit, oracle) && EndsAt(items, runs, ids, waiting, limit, oracle)
      modifies this
      ensures old(StatusFits()) ==> StatusFits()
      ensures Valid() && unrun == {} && waiting == Members(next) && Distinct(next) && KeepsOthers(before, items, ids)
      ensures next == Retried(todo, round, limit, oracle) && forall id | id in next :: id in ids
      ensures RunsExactly(runs, next, round + 1) && RunsAtMost(runs, round + 1)
      ensures (next != [] ==> GoOn(next, round + 1, limit, oracle)) && EndsAt(items, runs, ids, waiting, limit, oracle)
    {
      hide Valid, KeepsOthers, OnlyChanged, Known, HasEntry, Sound, Blank, RunsAtMost, RunsExactly, StatusFits, EndsAt, LastRound;
      AtMostMore(runs, round);
      NoneRan(runs, round + 1);
      assert todo[0..] == todo;
      next := [];
      for k := 0 to |todo|
        invariant Valid() && unrun == {} && KeepsOthers(before, items, ids) && (old(StatusFits()) ==> StatusFits())
        invariant waiting == Members(todo[k..]) + Members(next) && Members(todo[k..]) !! Members(next) && Distinct(next)
        invariant next == Retried(todo[..k], round, limit, oracle) && forall id | id in next :: id in ids
        invariant RunsExactly(runs, todo[k..], round) && RunsExactly(runs, next, round + 1) && RunsAtMost(runs, round + 1)
        invariant (next != [] ==> GoOn(next, round + 1, limit, oracle)) && EndsAt(items, runs, ids, waiting, limit, oracle)
      {
        var id := todo[k];
        HeadOfRest(todo, k);
        StillKnown(before, items, ids, id);
        FirstRan(runs, todo, k, round);
        RanOnceMore(runs, id, todo[k + 1..], next, round);
        assert todo[..k + 1][..k] == todo[..k];
        var again := RetryRun(id, ids, round, limit, oracle, before);
        if again {
          OneMoreRan(runs, next, id, round + 1);
          next := next + [id];
        }
      }
      assert todo[..|todo|] == todo;
    }

    // The body of a retry round.
    method RetryRun(id: string, ids: seq<string>, round: nat, limit: nat, oracle: Oracle, ghost before: seq<Entry>) returns (again: bool)
      requires Valid() && SoundOracle(oracle) && unrun == {} && id in waiting && id in ids && HasEntry(items, id)
      requires KeepsOthers(before, items, ids) && EndsAt(items, runs, ids, waiting, limit, oracle)
      requires round <= limit && LastRound(id, 0, limit, oracle) == LastRound(id, round, limit, oracle) && Runs(runs, id) == round
      modifies this
      ensures Valid() && StatusFits() && KeepsOthers(before, items, ids) && again == (round < limit && oracle(id, round).retry)
      ensures unrun == {} && waiting == if again then old(waiting) else old(waiting) - {id}
      ensures runs == old(runs)[id := Runs(old(runs), id) + 1] && EndsAt(items, runs, ids, waiting, limit, oracle)
      ensures again ==> LastRound(id, 0, limit, oracle) == LastRound(id, round + 1, limit, oracle)
    {
      hide Valid, KeepsOthers, OnlyChanged, Sound, Blank, StatusFits, EndsAt, LastRound;
      again := Conclude(id, oracle(id, round), round, limit);
      KeepsMore(before, old(items), items, id, ids);
      EndStep(old(items), items, old(runs), id, ids, old(waiting), round, limit, oracle);
    }
  }

  lemma AllKnown(before: seq<Entry>, after: seq<Entry>, ids: seq<string>)
    requires Known(before, ids) && KeepsOthers(before, after, ids)
    ensures Known(after, ids)
  {
    hide HasEntry, KeepsOthers;
    forall j | 0 <= j < |ids| ensures HasEntry(after, ids[j]) { StillKnown(before, after, ids, ids[j]); }
  }

  lemma KeepsBoth(before: seq<Entry>, middle: seq<Entry>, after: seq<Entry>, ids: seq<string>)
    requires KeepsOthers(before, middle, ids) && KeepsOthers(middle, after, ids)
    ensures KeepsOthers(before, after, ids)
  {}

  lemma NoneStarted(items: seq<Entry>, ids: seq<string>, limit: nat, oracle: Oracle)
    ensures EndsAt(items, map[], ids, Members(ids) + {}, limit, oracle) && KeepsOthers(items, items, ids)
    ensures RunsExactly(map[], ids, 0) && RunsExactly(map[], [], 1) && RunsAtMost(map[], 1)
  {}

  /** A patrol job over any run conditions: no device ever gets a second alarm event. */
  method RunPatrolJob(job: Job, ids: seq<string>, limit: nat, env: (string, nat) -> PatrolRun)
    requires job.Valid() && Distinct(ids) && Known(job.items, ids) && job.unrun == Members(ids) && job.waiting == {}
    requires job.runs == map[] && job.created == 0 && forall id: string, round: nat :: FreshEvent(env(id, round))
    modifies job
    ensures job.Valid() && AllDone(job.items) && RunsAtMost(job.runs, 1 + limit)
    ensures job.alarmCount == job.created && forall i | 0 <= i < |job.items| :: Runs(job.events, job.items[i].id) <= 1
  {
    var oracle := (id: string, round: nat) => PatrolOutcome(env(id, round));
    forall id: string, round: nat ensures Sound(oracle(id, round)) { PatrolOutcomeSound(env(id, round)); }
    job.Execute(ids, limit, oracle);
  }

  /** What the status a recomputation leaves says about the items. */
  lemma JobStatusMeans(items: seq<Entry>)
    ensures var status := JobStatusOf(Sum(items, IsWaiting), Sum(items, IsBusy), Sum(items, IsLost), Sum(items, IsDone));
      && (status == JobPending <==> exists i :: 0 <= i < |items| && items[i].status == Pending)
      && (status == JobRunning <==> status != JobPending && exists i :: 0 <= i < |items| && items[i].status == Running)
      && (status == Completed <==> forall i | 0 <= i < |items| :: items[i].status == Success)
      && (status == JobFailed <==> items != [] && forall i | 0 <= i < |items| :: items[i].status == Failed)
  {
    ZeroSum(items, IsWaiting);
    ZeroSum(items, IsBusy);
    ZeroSum(items, IsLost);
    ZeroSum(items, IsDone);
    assert forall i | 0 <= i < |items| :: (IsWaiting(items[i]) == 0) == (items[i].status != Pending) && (IsBusy(items[i]) == 0) == (items[i].status != Running);
    assert forall i | 0 <= i < |items| :: (IsLost(items[i]) == 0) == (items[i].status != Failed) && (IsDone(items[i]) == 0) == (items[i].status != Success);
    if items != [] { assert items[0].status == Pending || items[0].status == Running || items[0].status == Failed || items[0].status == Success; }
  }

  lemma NoneWaiting(items: seq<Entry>)
    requires AllDone(items)
    ensures Sum(items, IsWaiting) == 0 && Sum(items, IsBusy) == 0
  {
    ZeroSum(items, IsWaiting);
    ZeroSum(items, IsBusy);
  }

  lemma {:induction false} AllCounted(items: seq<Entry>)
    requires AllDone(items)
    ensures Sum(items, IsDone) + Sum(items, IsLost) == |items|
  {
    if items != [] {
      assert forall i | 0 <= i < |items[1..]| :: items[1..][i] == items[i + 1];
      AllCounted(items[1..]);
    }
  }
}
