/** The large-model usage ledger: a log of calls with unique ids and two derived tables, one row per
    hour or day and key, that are updated by upserts. The zone has a fixed offset. */
module UsageLedger {
  import opened Wrappers
  import opened Text

  datatype Source = TaskRuntime | AlgorithmTest | DirectAnalyze

  datatype CallStatus = CallSuccess | EmptyContent | CallError

  // The columns of the two unique indexes besides the bucket.
  datatype Key = Key(source: Source, providerId: string, model: string, status: CallStatus, usageAvailable: bool)

  datatype Tokens = Tokens(prompt: Option<int>, completion: Option<int>, total: Option<int>)

  datatype Call = Call(id: string, key: Key, tokens: Tokens, at: int)

  // `now` is the clock reading of the call that records the request.
  datatype Request = Request(callId: string, source: string, providerId: string, usageModel: string, requestModel: string,
                             status: string, usageAvailable: bool, tokens: Tokens, occurredAt: Option<int>, now: int)

  datatype Totals = Totals(calls: int, prompt: int, completion: int, total: int)

  datatype Row = Row(bucket: int, key: Key, totals: Totals)

  // --- Normalisation ---

  function SourceOf(raw: string): Source {
    var s := TrimSpace(raw);
    if s == "task_runtime" then TaskRuntime else if s == "algorithm_test" then AlgorithmTest else DirectAnalyze
  }

  function StatusOf(raw: string): CallStatus {
    var s := TrimSpace(raw);
    if s == "success" then CallSuccess else if s == "empty_content" then EmptyContent else CallError
  }

  function CallOf(req: Request): Call {
    var model := if TrimSpace(req.usageModel) != "" then TrimSpace(req.usageModel) else TrimSpace(req.requestModel);
    Call(TrimSpace(req.callId),
         Key(SourceOf(req.source), TrimSpace(req.providerId), model, StatusOf(req.status), req.usageAvailable),
         req.tokens, if req.occurredAt.Some? then req.occurredAt.value else req.now)
  }

  /** A request is logged with its texts trimmed, the model the call reports before the one asked for,
      its own time before the clock's, and its tokens as they are; unknown sources and states are the
      direct ones and errors. */
  lemma CallKeeps(req: Request)
    ensures var c := CallOf(req);
      && c.id == TrimSpace(req.callId) && c.tokens == req.tokens && c.key.providerId == TrimSpace(req.providerId)
      && c.key.usageAvailable == req.usageAvailable
      && (TrimSpace(req.usageModel) != "" ==> c.key.model == TrimSpace(req.usageModel))
      && (TrimSpace(req.usageModel) == "" ==> c.key.model == TrimSpace(req.requestModel))
      && (req.occurredAt == None ==> c.at == req.now) && (forall t | req.occurredAt == Some(t) :: c.at == t)
      && (c.key.source == TaskRuntime <==> TrimSpace(req.source) == "task_runtime")
      && (c.key.source == AlgorithmTest <==> TrimSpace(req.source) == "algorithm_test")
      && (c.key.status == CallSuccess <==> TrimSpace(req.status) == "success")
      && (c.key.status == EmptyContent <==> TrimSpace(req.status) == "empty_content")
  {
    assert "task_runtime"[0] != "algorithm_test"[0] && "success"[0] != "empty_content"[0];
  }

  // --- Buckets: seconds since the epoch, in a zone `offset` seconds ahead of UTC ---

  const HOUR := 3600
  const DAY := 86400

  function HourBucket(t: int, offset: int): int { t - (t + offset) % HOUR }

  function DayBucket(t: int, offset: int): int { t - (t + offset) % DAY }

  /** A bucket starts on the hour or at midnight of the zone, and the moment lies in it. */
  lemma BucketsHold(t: int, offset: int)
    ensures HourBucket(t, offset) <= t < HourBucket(t, offset) + 3600 && exists q :: HourBucket(t, offset) + offset == q * 3600
    ensures DayBucket(t, offset) <= t < DayBucket(t, offset) + 86400 && exists q :: DayBucket(t, offset) + offset == q * 86400
  {
    var x := t + offset;
    assert HourBucket(t, offset) + offset == (x / HOUR) * 3600;
    assert DayBucket(t, offset) + offset == (x / DAY) * 86400;
  }

  lemma DayOfHour(t: int, offset: int)
    ensures DayBucket(HourBucket(t, offset), offset) == DayBucket(t, offset)
  {
    var x := t + offset;
    var h, d := x % HOUR, x % DAY;
    var q := x / DAY;
    assert x == DAY * q + d;
    assert d % HOUR == h by { assert x == HOUR * (24 * q + d / HOUR) + d % HOUR; HourUnique(x, 24 * q + d / HOUR, d % HOUR); }
    assert d - h >= 0;
    assert x - h == DAY * q + (d - h);
    DayUnique(x - h, q, d - h);
  }

  lemma HourUnique(x: int, q: int, r: int)
    requires x == HOUR * q + r && 0 <= r < HOUR
    ensures x % HOUR == r && x / HOUR == q
  {}

  lemma DayUnique(x: int, q: int, r: int)
    requires x == DAY * q + r && 0 <= r < DAY
    ensures x % DAY == r && x / DAY == q
  {}

  // --- Tables ---

  const ZERO := Totals(0, 0, 0, 0)

  function Value(n: Option<int>): int { if n.Some? then n.value else 0 }

  function OneCall(t: Tokens): Totals { Totals(1, Value(t.prompt), Value(t.completion), Value(t.total)) }

  function Add(a: Totals, b: Totals): Totals {
    Totals(a.calls + b.calls, a.prompt + b.prompt, a.completion + b.completion, a.total + b.total)
  }

  function Find(rows: seq<Row>, bucket: int, key: Key): (i: nat)
    ensures i <= |rows| && (i < |rows| ==> rows[i].bucket == bucket && rows[i].key == key)
    ensures forall j | 0 <= j < i :: rows[j].bucket != bucket || rows[j].key != key
  {
    if rows == [] then 0
    else if rows[0].bucket == bucket && rows[0].key == key then 0
    else
      var i := Find(rows[1..], bucket, key);
      assert forall j | 1 <= j < i + 1 :: rows[j] == rows[1..][j - 1];
      i + 1
  }

  // INSERT ... ON CONFLICT (bucket, key) DO UPDATE adding the amounts.
  function Upsert(rows: seq<Row>, bucket: int, key: Key, amount: Totals): seq<Row> {
    var i := Find(rows, bucket, key);
    if i < |rows| then rows[i := rows[i].(totals := Add(rows[i].totals, amount))] else rows + [Row(bucket, key, amount)]
  }

  function At(rows: seq<Row>, bucket: int, key: Key): Totals {
    var i := Find(rows, bucket, key);
    if i < |rows| then rows[i].totals else ZERO
  }

  type Bucketing = int -> int

  datatype Ledger = Ledger(calls: seq<Call>, hourly: seq<Row>, daily: seq<Row>)

  predicate Logged(calls: seq<Call>, id: string) {
    exists i :: 0 <= i < |calls| && calls[i].id == id
  }

  // Which of the three writes succeed; each is made only after the one before.
  datatype Writes = Writes(log: bool, hourly: bool, daily: bool)

  const ALL_WRITTEN := Writes(true, true, true)

  datatype Recorded = Recorded(ledger: Ledger, outcome: Result<bool, ()>)

  function Record(l: Ledger, req: Request, offset: int, w: Writes): Recorded {
    var call := CallOf(req);
    if call.id == "" then Recorded(l, Ok(false))
    else if !w.log then Recorded(l, Err(()))
    else if Logged(l.calls, call.id) then Recorded(l, Ok(false))
    else
      var logged := l.(calls := l.calls + [call]);
      if !w.hourly then Recorded(logged, Err(()))
      else
        var counted := logged.(hourly := Upsert(l.hourly, HourBucket(call.at, offset), call.key, OneCall(call.tokens)));
        if !w.daily then Recorded(counted, Err(()))
        else Recorded(counted.(daily := Upsert(l.daily, DayBucket(call.at, offset), call.key, OneCall(call.tokens))), Ok(true))
  }

  /** A request counts as recorded exactly when its call is new and every write succeeds, as nothing to do
      exactly when it has no id or is logged already; and each table changes only by its own write. */
  lemma RecordSays(l: Ledger, req: Request, offset: int, w: Writes)
    ensures var r, id := Record(l, req, offset, w), TrimSpace(req.callId);
      var isNew := id != "" && !exists i :: 0 <= i < |l.calls| && l.calls[i].id == id;
      && (r.outcome == Ok(true) <==> isNew && w.log && w.hourly && w.daily)
      && (r.outcome == Ok(false) <==> id == "" || (w.log && !isNew))
      && r.ledger.calls == (if isNew && w.log then l.calls + [CallOf(req)] else l.calls)
      && (r.ledger.hourly != l.hourly ==> isNew && w.log && w.hourly)
      && (r.ledger.daily != l.daily ==> isNew && w.log && w.hourly && w.daily)
  {}

  // --- What the tables should hold ---

  function Share(c: Call, bucketing: Bucketing, bucket: int, key: Key): Totals {
    if bucketing(c.at) == bucket && c.key == key then OneCall(c.tokens) else ZERO
  }

  // The sum over the logged calls of one bucket and key.
  function Fold(calls: seq<Call>, bucketing: Bucketing, bucket: int, key: Key): Totals {
    if calls == [] then ZERO
    else Add(Fold(calls[..|calls| - 1], bucketing, bucket, key), Share(calls[|calls| - 1], bucketing, bucket, key))
  }

  predicate UniqueIds(calls: seq<Call>) {
    forall i, j | 0 <= i < j < |calls| :: calls[i].id != calls[j].id
  }

  predicate UniqueRows(rows: seq<Row>) {
    forall i, j | 0 <= i < j < |rows| :: rows[i].bucket != rows[j].bucket || rows[i].key != rows[j].key
  }

  ghost predicate HasRow(rows: seq<Row>, bucket: int, key: Key) {
    exists i :: 0 <= i < |rows| && rows[i].bucket == bucket && rows[i].key == key
  }

  // Every row is the fold of its calls, and every call has a row.
  ghost predicate Agrees(rows: seq<Row>, calls: seq<Call>, bucketing: Bucketing) {
    && UniqueRows(rows)
    && (forall i | 0 <= i < |rows| :: rows[i].totals == Fold(calls, bucketing, rows[i].bucket, rows[i].key))
    && (forall i | 0 <= i < |calls| :: HasRow(rows, bucketing(calls[i].at), calls[i].key))
  }

  function Hourly(offset: int): Bucketing { t => HourBucket(t, offset) }
  function Daily(offset: int): Bucketing { t => DayBucket(t, offset) }

  ghost predicate Consistent(l: Ledger, offset: int) {
    UniqueIds(l.calls) && Agrees(l.hourly, l.calls, Hourly(offset)) && Agrees(l.daily, l.calls, Daily(offset))
  }

  lemma {:induction false} FoldNone(calls: seq<Call>, bucketing: Bucketing, bucket: int, key: Key)
    requires forall i | 0 <= i < |calls| :: bucketing(calls[i].at) != bucket || calls[i].key != key
    ensures Fold(calls, bucketing, bucket, key) == ZERO
  {
    if calls != [] { FoldNone(calls[..|calls| - 1], bucketing, bucket, key); }
  }

  lemma FoldSnoc(calls: seq<Call>, c: Call, bucketing: Bucketing, bucket: int, key: Key)
    ensures Fold(calls + [c], bucketing, bucket, key) == Add(Fold(calls, bucketing, bucket, key), Share(c, bucketing, bucket, key))
  {
    assert (calls + [c])[..|calls|] == calls;
  }

  // How many of the calls fall into a bucket under a key, and the sum of a figure over them.
  function CallsIn(calls: seq<Call>, bucketing: Bucketing, bucket: int, key: Key): nat {
    if calls == [] then 0
    else
      var c := calls[|calls| - 1];
      CallsIn(calls[..|calls| - 1], bucketing, bucket, key) + if c.key == key && bucketing(c.at) == bucket then 1 else 0
  }

  datatype Figure = PromptTokens | CompletionTokens | AllTokens

  // What a call adds to a figure of the bucket and key; nothing when its usage is missing.
  function Part(c: Call, bucketing: Bucketing, bucket: int, key: Key, figure: Figure): int {
    var given := match figure
      case PromptTokens => c.tokens.prompt
      case CompletionTokens => c.tokens.completion
      case AllTokens => c.tokens.total;
    if c.key == key && bucketing(c.at) == bucket && given.Some? then given.value else 0
  }

  function SumIn(calls: seq<Call>, bucketing: Bucketing, bucket: int, key: Key, figure: Figure): int {
    if calls == [] then 0
    else SumIn(calls[..|calls| - 1], bucketing, bucket, key, figure) + Part(calls[|calls| - 1], bucketing, bucket, key, figure)
  }

  /** A fold counts the calls and sums their prompt, completion and total tokens, missing ones as none. */
  lemma {:induction false} FoldMeans(calls: seq<Call>, bucketing: Bucketing, bucket: int, key: Key)
    ensures Fold(calls, bucketing, bucket, key) ==
      Totals(CallsIn(calls, bucketing, bucket, key), SumIn(calls, bucketing, bucket, key, PromptTokens),
             SumIn(calls, bucketing, bucket, key, CompletionTokens), SumIn(calls, bucketing, bucket, key, AllTokens))
  {
    hide Share, Part;
    if calls != [] {
      FoldMeans(calls[..|calls| - 1], bucketing, bucket, key);
      ShareMeans(calls[|calls| - 1], bucketing, bucket, key);
    }
  }

  lemma ShareMeans(c: Call, bucketing: Bucketing, bucket: int, key: Key)
    ensures Share(c, bucketing, bucket, key) ==
      Totals(if c.key == key && bucketing(c.at) == bucket then 1 else 0, Part(c, bucketing, bucket, key, PromptTokens),
             Part(c, bucketing, bucket, key, CompletionTokens), Part(c, bucketing, bucket, key, AllTokens))
  {}

  lemma UpsertUnique(rows: seq<Row>, bucket: int, key: Key, amount: Totals)
    requires UniqueRows(rows)
    ensures UniqueRows(Upsert(rows, bucket, key, amount))
  {}

  lemma UpsertRow(rows: seq<Row>, bucket: int, key: Key, amount: Totals, k: nat)
    requires UniqueRows(rows) && k < |Upsert(rows, bucket, key, amount)|
    ensures var row := Upsert(rows, bucket, key, amount)[k];
      if row.bucket == bucket && row.key == key then
        if HasRow(rows, bucket, key) then k < |rows| && rows[k].bucket == bucket && rows[k].key == key && row.totals == Add(rows[k].totals, amount)
        else row.totals == amount
      else k < |rows| && row == rows[k]
  {}

  lemma UpsertHasRow(rows: seq<Row>, bucket: int, key: Key, amount: Totals, b: int, k: Key)
    ensures HasRow(Upsert(rows, bucket, key, amount), b, k) <==> HasRow(rows, b, k) || (b == bucket && k == key)
  {
    var after := Upsert(rows, bucket, key, amount);
    assert forall i | 0 <= i < |rows| :: after[i].bucket == rows[i].bucket && after[i].key == rows[i].key;
    var i := Find(rows, bucket, key);
    assert after[i].bucket == bucket && after[i].key == key;
    if HasRow(rows, b, k) {
      var r :| 0 <= r < |rows| && rows[r].bucket == b && rows[r].key == k;
      assert after[r].bucket == b && after[r].key == k;
    }
  }

  // The new call counts for its own row only.
  lemma ShareOf(c: Call, bucketing: Bucketing, bucket: int, key: Key, totals: Totals)
    ensures Add(totals, Share(c, bucketing, bucket, key)) ==
      if bucketing(c.at) == bucket && c.key == key then Add(totals, OneCall(c.tokens)) else totals
    ensures Add(ZERO, OneCall(c.tokens)) == OneCall(c.tokens)
  {}

  lemma UpsertTotals(rows: seq<Row>, calls: seq<Call>, c: Call, bucketing: Bucketing, k: nat)
    requires UniqueRows(rows) && k < |Upsert(rows, bucketing(c.at), c.key, OneCall(c.tokens))|
    requires k < |rows| ==> rows[k].totals == Fold(calls, bucketing, rows[k].bucket, rows[k].key)
    requires !HasRow(rows, bucketing(c.at), c.key) ==> Fold(calls, bucketing, bucketing(c.at), c.key) == ZERO
    ensures var row := Upsert(rows, bucketing(c.at), c.key, OneCall(c.tokens))[k];
      row.totals == Fold(calls + [c], bucketing, row.bucket, row.key)
  {
    hide Upsert, HasRow, UniqueRows, Fold, Add, OneCall, Share;
    var row := Upsert(rows, bucketing(c.at), c.key, OneCall(c.tokens))[k];
    FoldSnoc(calls, c, bucketing, row.bucket, row.key);
    ShareOf(c, bucketing, row.bucket, row.key, Fold(calls, bucketing, row.bucket, row.key));
    UpsertRow(rows, bucketing(c.at), c.key, OneCall(c.tokens), k);
  }

  lemma UpsertCovers(rows: seq<Row>, calls: seq<Call>, c: Call, bucketing: Bucketing, k: nat)
    requires Agrees(rows, calls, bucketing) && k <= |calls|
    ensures var of := (calls + [c])[k];
      HasRow(Upsert(rows, bucketing(c.at), c.key, OneCall(c.tokens)), bucketing(of.at), of.key)
  {
    hide Upsert, HasRow, UniqueRows, Fold;
    var of := (calls + [c])[k];
    UpsertHasRow(rows, bucketing(c.at), c.key, OneCall(c.tokens), bucketing(of.at), of.key);
    assert k < |calls| ==> of == calls[k];
  }

  /** An upsert for a newly logged call keeps a table in agreement with the log. */
  lemma UpsertAgrees(rows: seq<Row>, calls: seq<Call>, c: Call, bucketing: Bucketing)
    requires Agrees(rows, calls, bucketing)
    ensures Agrees(Upsert(rows, bucketing(c.at), c.key, OneCall(c.tokens)), calls + [c], bucketing)
  {
    hide Upsert, HasRow, UniqueRows, Fold;
    var bucket, all := bucketing(c.at), calls + [c];
    var after := Upsert(rows, bucket, c.key, OneCall(c.tokens));
    UpsertUnique(rows, bucket, c.key, OneCall(c.tokens));
    if !HasRow(rows, bucket, c.key) { NoRowNoFold(rows, calls, bucketing, bucket, c.key); }
    forall k: nat | k < |after| ensures after[k].totals == Fold(all, bucketing, after[k].bucket, after[k].key) {
      UpsertTotals(rows, calls, c, bucketing, k);
    }
    forall k: nat | k < |all| ensures HasRow(after, bucketing(all[k].at), all[k].key) {
      UpsertCovers(rows, calls, c, bucketing, k);
    }
  }

  lemma NoRowNoFold(rows: seq<Row>, calls: seq<Call>, bucketing: Bucketing, bucket: int, key: Key)
    requires Agrees(rows, calls, bucketing) && !HasRow(rows, bucket, key)
    ensures Fold(calls, bucketing, bucket, key) == ZERO
  {
    hide HasRow;
    FoldNone(calls, bucketing, bucket, key);
  }

  // A logged call that reaches no row leaves the table behind.
  lemma MissedUpsertDisagrees(rows: seq<Row>, calls: seq<Call>, c: Call, bucketing: Bucketing)
    requires Agrees(rows, calls, bucketing)
    ensures !Agrees(rows, calls + [c], bucketing)
  {
    var bucket := bucketing(c.at);
    assert (calls + [c])[|calls|] == c;
    if HasRow(rows, bucket, c.key) {
      var r :| 0 <= r < |rows| && rows[r].bucket == bucket && rows[r].key == c.key;
      FoldSnoc(calls, c, bucketing, bucket, c.key);
      assert rows[r].totals != Fold(calls + [c], bucketing, bucket, c.key);
    }
  }

  /** A request keeps the ledger consistent if and only if it logs nothing new or all its writes
      succeed: the writes are not in one transaction. */
  lemma RecordConsistentIff(l: Ledger, req: Request, offset: int, w: Writes)
    requires Consistent(l, offset)
    ensures Consistent(Record(l, req, offset, w).ledger, offset)
      <==> TrimSpace(req.callId) == "" || Logged(l.calls, TrimSpace(req.callId)) || !w.log || (w.hourly && w.daily)
  {
    var call := CallOf(req);
    if call.id != "" && w.log && !Logged(l.calls, call.id) {
      assert Hourly(offset)(call.at) == HourBucket(call.at, offset) && Daily(offset)(call.at) == DayBucket(call.at, offset);
      UpsertAgrees(l.hourly, l.calls, call, Hourly(offset));
      UpsertAgrees(l.daily, l.calls, call, Daily(offset));
      MissedUpsertDisagrees(l.hourly, l.calls, call, Hourly(offset));
      MissedUpsertDisagrees(l.daily, l.calls, call, Daily(offset));
    }
  }

  /** Replaying a request whose call is logged changes nothing, so it cannot repair a table either. */
  lemma ReplayChangesNothing(l: Ledger, req: Request, later: int, offset: int, w: Writes, again: Writes)
    requires w.log
    ensures Record(Record(l, req, offset, w).ledger, req.(now := later), offset, again).ledger == Record(l, req, offset, w).ledger
  {
    var calls, call := l.calls, CallOf(req);
    if call.id != "" && !Logged(calls, call.id) { assert (calls + [call])[|calls|] == call; }
  }

  // --- Runs of requests whose writes succeed ---

  function RecordAll(reqs: seq<Request>, offset: int): Ledger {
    if reqs == [] then Ledger([], [], [])
    else Record(RecordAll(reqs[..|reqs| - 1], offset), reqs[|reqs| - 1], offset, ALL_WRITTEN).ledger
  }

  /** After any requests, duplicates included, each row of both tables is the fold of the distinct
      logged calls of its bucket and key, and the daily rows hold all used tokens. */
  lemma {:induction false} LedgerConsistent(reqs: seq<Request>, offset: int)
    ensures Consistent(RecordAll(reqs, offset), offset)
    ensures UsedTokens(RecordAll(reqs, offset).calls) == RowTokens(RecordAll(reqs, offset).daily)
    ensures UsedTokens(RecordAll(reqs, offset).calls) == RowTokens(RecordAll(reqs, offset).hourly)
  {
    hide Consistent, Record, UsedTokens, RowTokens, TrimSpace;
    if reqs == [] {
      EmptyLedger(offset);
    } else {
      var init, last := reqs[..|reqs| - 1], reqs[|reqs| - 1];
      LedgerConsistent(init, offset);
      RecordConsistentIff(RecordAll(init, offset), last, offset, ALL_WRITTEN);
      DriftStays(RecordAll(init, offset), last, offset);
    }
  }

  /** So every row of either table shows how many calls were logged in its hour or day under its key, and
      the sums of their prompt, completion and total tokens. */
  lemma RowsShowSums(reqs: seq<Request>, offset: int, i: nat)
    ensures var l := RecordAll(reqs, offset);
      && (i < |l.hourly| ==> ShowsSums(l.hourly[i], l.calls, Hourly(offset)))
      && (i < |l.daily| ==> ShowsSums(l.daily[i], l.calls, Daily(offset)))
  {
    hide RecordAll, Fold, UniqueRows, HasRow, CallsIn, SumIn;
    LedgerConsistent(reqs, offset);
    var l := RecordAll(reqs, offset);
    if i < |l.hourly| { FoldMeans(l.calls, Hourly(offset), l.hourly[i].bucket, l.hourly[i].key); }
    if i < |l.daily| { FoldMeans(l.calls, Daily(offset), l.daily[i].bucket, l.daily[i].key); }
  }

  predicate ShowsSums(row: Row, calls: seq<Call>, bucketing: Bucketing) {
    && row.totals.calls == CallsIn(calls, bucketing, row.bucket, row.key)
    && row.totals.prompt == SumIn(calls, bucketing, row.bucket, row.key, PromptTokens)
    && row.totals.completion == SumIn(calls, bucketing, row.bucket, row.key, CompletionTokens)
    && row.totals.total == SumIn(calls, bucketing, row.bucket, row.key, AllTokens)
  }

  lemma EmptyLedger(offset: int)
    ensures Consistent(Ledger([], [], []), offset) && UsedTokens([]) == RowTokens([]) == 0
  {}

  predicate Requested(reqs: seq<Request>, id: string) {
    exists j :: 0 <= j < |reqs| && TrimSpace(reqs[j].callId) == id
  }

  lemma {:induction false} LoggedIffRequested(reqs: seq<Request>, offset: int, id: string)
    ensures Logged(RecordAll(reqs, offset).calls, id) <==> id != "" && Requested(reqs, id)
  {
    hide TrimSpace, Record, Logged, Requested;
    if reqs == [] {
      NothingLogged(id);
    } else {
      var init, last := reqs[..|reqs| - 1], reqs[|reqs| - 1];
      LoggedIffRequested(init, offset, id);
      LogAfter(RecordAll(init, offset), last, offset, id);
      RequestedSnoc(init, last, id);
      assert reqs == init + [last];
    }
  }

  lemma NothingLogged(id: string)
    ensures !Logged([], id) && !Requested([], id)
  {}

  lemma RequestedSnoc(init: seq<Request>, last: Request, id: string)
    ensures Requested(init + [last], id) <==> Requested(init, id) || TrimSpace(last.callId) == id
  {
    hide TrimSpace;
    var reqs := init + [last];
    assert reqs[|init|] == last;
    if Requested(init, id) {
      var j :| 0 <= j < |init| && TrimSpace(init[j].callId) == id;
      assert reqs[j] == init[j];
    }
  }

  lemma LogAfter(l: Ledger, req: Request, offset: int, id: string)
    ensures Logged(Record(l, req, offset, ALL_WRITTEN).ledger.calls, id)
      <==> Logged(l.calls, id) || (id != "" && TrimSpace(req.callId) == id)
  {
    hide TrimSpace, Upsert;
    var calls, call := l.calls, CallOf(req);
    assert (calls + [call])[|calls|] == call;
    assert forall k | 0 <= k < |calls| :: (calls + [call])[k] == calls[k];
  }

  /** The log holds one call per non-blank id, the one of the first request that carried it. */
  lemma {:induction false} FirstRequestWins(reqs: seq<Request>, offset: int, i: nat)
    requires i < |reqs| && TrimSpace(reqs[i].callId) != ""
    requires !Requested(reqs[..i], TrimSpace(reqs[i].callId))
    ensures CallOf(reqs[i]) in RecordAll(reqs, offset).calls
    decreases |reqs|
  {
    hide TrimSpace, Upsert, Requested;
    var init := reqs[..|reqs| - 1];
    if i < |init| {
      assert init[..i] == reqs[..i];
      FirstRequestWins(init, offset, i);
    } else {
      LoggedIffRequested(init, offset, TrimSpace(reqs[i].callId));
    }
  }

  // --- The quota ---

  // SELECT COALESCE(SUM(COALESCE(total_tokens, 0)), 0) over the log.
  function UsedTokens(calls: seq<Call>): int {
    if calls == [] then 0 else UsedTokens(calls[..|calls| - 1]) + Value(calls[|calls| - 1].tokens.total)
  }

  function RowTokens(rows: seq<Row>): int {
    if rows == [] then 0 else RowTokens(rows[..|rows| - 1]) + rows[|rows| - 1].totals.total
  }

  lemma {:induction false} RowTokensUpdate(rows: seq<Row>, i: nat, row: Row)
    requires i < |rows|
    ensures RowTokens(rows[i := row]) == RowTokens(rows) + row.totals.total - rows[i].totals.total
  {
    var n := |rows| - 1;
    if i == n {
      assert rows[i := row][..n] == rows[..n];
    } else {
      assert rows[i := row][..n] == rows[..n][i := row];
      RowTokensUpdate(rows[..n], i, row);
    }
  }

  lemma UpsertTokens(rows: seq<Row>, bucket: int, key: Key, amount: Totals)
    ensures RowTokens(Upsert(rows, bucket, key, amount)) == RowTokens(rows) + amount.total
  {
    var i := Find(rows, bucket, key);
    if i < |rows| {
      RowTokensUpdate(rows, i, rows[i].(totals := Add(rows[i].totals, amount)));
    } else {
      assert (rows + [Row(bucket, key, amount)])[..|rows|] == rows;
    }
  }

  /** Successful requests keep whatever gap there is between the log and the daily rows: a gap left
      by a failed write is never closed again. */
  lemma DriftStays(l: Ledger, req: Request, offset: int)
    ensures var after := Record(l, req, offset, ALL_WRITTEN).ledger;
      && UsedTokens(after.calls) - RowTokens(after.daily) == UsedTokens(l.calls) - RowTokens(l.daily)
      && UsedTokens(after.calls) - RowTokens(after.hourly) == UsedTokens(l.calls) - RowTokens(l.hourly)
  {
    var calls, call := l.calls, CallOf(req);
    if call.id != "" && !Logged(calls, call.id) {
      assert (calls + [call])[..|calls|] == calls;
      UpsertTokens(l.hourly, HourBucket(call.at, offset), call.key, OneCall(call.tokens));
      UpsertTokens(l.daily, DayBucket(call.at, offset), call.key, OneCall(call.tokens));
    }
  }

  // --- A day is the sum of its hours ---

  function HourStart(day: int, i: nat): int { day + i * HOUR }

  function HoursSum(rows: seq<Row>, day: int, key: Key, n: nat): Totals {
    if n == 0 then ZERO else Add(HoursSum(rows, day, key, n - 1), At(rows, HourStart(day, n - 1), key))
  }

  function FoldHours(calls: seq<Call>, offset: int, day: int, key: Key, n: nat): Totals {
    if n == 0 then ZERO
    else Add(FoldHours(calls, offset, day, key, n - 1), Fold(calls, Hourly(offset), HourStart(day, n - 1), key))
  }

  lemma AtIsFold(rows: seq<Row>, calls: seq<Call>, bucketing: Bucketing, bucket: int, key: Key)
    requires Agrees(rows, calls, bucketing)
    ensures At(rows, bucket, key) == Fold(calls, bucketing, bucket, key)
  {
    var i := Find(rows, bucket, key);
    if i == |rows| { FoldNone(calls, bucketing, bucket, key); }
  }

  lemma HourlyAgrees(l: Ledger, offset: int)
    requires Consistent(l, offset)
    ensures Agrees(l.hourly, l.calls, Hourly(offset))
  {}

  lemma {:induction false} HoursAreFolds(l: Ledger, offset: int, day: int, key: Key, n: nat)
    requires Consistent(l, offset)
    ensures HoursSum(l.hourly, day, key, n) == FoldHours(l.calls, offset, day, key, n)
  {
    hide At, Fold, HourStart, Consistent;
    if n > 0 {
      assert Agrees(l.hourly, l.calls, Hourly(offset)) by { HourlyAgrees(l, offset); }
      HoursAreFolds(l, offset, day, key, n - 1);
      AtIsFold(l.hourly, l.calls, Hourly(offset), HourStart(day, n - 1), key);
    }
  }

  predicate InHours(hour: int, day: int, n: nat) {
    0 <= hour - day < n * HOUR && (hour - day) % HOUR == 0
  }

  lemma {:induction false} FoldHoursSnoc(calls: seq<Call>, c: Call, offset: int, day: int, key: Key, n: nat)
    ensures FoldHours(calls + [c], offset, day, key, n) ==
      Add(FoldHours(calls, offset, day, key, n),
          if c.key == key && InHours(HourBucket(c.at, offset), day, n) then OneCall(c.tokens) else ZERO)
  {
    hide Fold, HourBucket, InHours, HourStart, FoldHours, Add, Share;
    var hour := HourBucket(c.at, offset);
    FoldHoursStep(calls, offset, day, key, n);
    FoldHoursStep(calls + [c], offset, day, key, n);
    if n == 0 {
      NotInNoHours(hour, day);
      AddZero(ZERO);
    } else {
      FoldHoursSnoc(calls, c, offset, day, key, n - 1);
      FoldSnoc(calls, c, Hourly(offset), HourStart(day, n - 1), key);
      SlotIff(hour, day, n - 1);
      var own := if c.key == key && InHours(hour, day, n - 1) then OneCall(c.tokens) else ZERO;
      HourShare(c, offset, HourStart(day, n - 1), key);
      AddSwap(FoldHours(calls, offset, day, key, n - 1), own, Fold(calls, Hourly(offset), HourStart(day, n - 1), key),
              Share(c, Hourly(offset), HourStart(day, n - 1), key));
      AddZero(OneCall(c.tokens));
      AddZero(ZERO);
    }
  }

  lemma FoldHoursStep(calls: seq<Call>, offset: int, day: int, key: Key, n: nat)
    ensures FoldHours(calls, offset, day, key, n) ==
      if n == 0 then ZERO
      else Add(FoldHours(calls, offset, day, key, n - 1), Fold(calls, Hourly(offset), HourStart(day, n - 1), key))
  {
    hide Fold, HourStart, Add;
  }

  lemma HourShare(c: Call, offset: int, start: int, key: Key)
    ensures Share(c, Hourly(offset), start, key) == if c.key == key && HourBucket(c.at, offset) == start then OneCall(c.tokens) else ZERO
  {
    assert Hourly(offset)(c.at) == HourBucket(c.at, offset);
  }

  lemma AddSwap(a: Totals, x: Totals, b: Totals, y: Totals)
    ensures Add(Add(a, x), Add(b, y)) == Add(Add(a, b), Add(x, y))
  {}

  lemma AddZero(a: Totals)
    ensures Add(a, ZERO) == a == Add(ZERO, a)
  {}

  lemma NotInNoHours(hour: int, day: int)
    ensures !InHours(hour, day, 0)
  {}

  lemma SlotIff(hour: int, day: int, n: nat)
    ensures InHours(hour, day, n + 1) <==> InHours(hour, day, n) || hour == HourStart(day, n)
    ensures hour == HourStart(day, n) ==> !InHours(hour, day, n)
  {
    var gap := hour - day;
    if n * HOUR <= gap < (n + 1) * HOUR {
      HourUnique(gap, n, gap - n * HOUR);
    }
  }

  // An hour belongs to a day exactly when it starts within it.
  lemma HourInDay(t: int, offset: int, day: int)
    requires DayBucket(day, offset) == day
    ensures InHours(HourBucket(t, offset), day, 24) <==> DayBucket(t, offset) == day
  {
    var hour := HourBucket(t, offset);
    DayOfHour(t, offset);
    var q, p := (day + offset) / DAY, (t + offset) / HOUR;
    assert day + offset == DAY * q && hour + offset == HOUR * p;
    var gap := hour - day;
    assert gap == HOUR * (p - 24 * q);
    HourUnique(gap, p - 24 * q, 0);
    if 0 <= gap < 24 * HOUR { DayUnique(hour + offset, q, gap); }
  }

  lemma {:induction false} DayIsItsHours(calls: seq<Call>, offset: int, day: int, key: Key)
    requires DayBucket(day, offset) == day
    ensures FoldHours(calls, offset, day, key, 24) == Fold(calls, Daily(offset), day, key)
  {
    if calls == [] {
      NoHours(offset, day, key, 24);
    } else {
      var init, c := calls[..|calls| - 1], calls[|calls| - 1];
      assert calls == init + [c];
      DayIsItsHours(init, offset, day, key);
      FoldHoursSnoc(init, c, offset, day, key, 24);
      HourInDay(c.at, offset, day);
      assert Daily(offset)(c.at) == DayBucket(c.at, offset);
    }
  }

  lemma {:induction false} NoHours(offset: int, day: int, key: Key, n: nat)
    ensures FoldHours([], offset, day, key, n) == ZERO
  {
    if n > 0 {
      NoHours(offset, day, key, n - 1);
      FoldNone([], Hourly(offset), HourStart(day, n - 1), key);
      hide Fold, HourStart;
    }
  }

  /** Each daily row is the sum of the hourly rows of its day. */
  lemma DailyIsHourlySum(l: Ledger, offset: int, i: nat)
    requires Consistent(l, offset) && i < |l.daily| && DayBucket(l.daily[i].bucket, offset) == l.daily[i].bucket
    ensures l.daily[i].totals == HoursSum(l.hourly, l.daily[i].bucket, l.daily[i].key, 24)
  {
    var day, key := l.daily[i].bucket, l.daily[i].key;
    HoursAreFolds(l, offset, day, key, 24);
    DayIsItsHours(l.calls, offset, day, key);
  }

  predicate DayStarts(rows: seq<Row>, offset: int) {
    forall i | 0 <= i < |rows| :: DayBucket(rows[i].bucket, offset) == rows[i].bucket
  }

  /** Rows are only ever made for the start of a day. */
  lemma {:induction false} DailyBucketsAreDays(reqs: seq<Request>, offset: int)
    ensures DayStarts(RecordAll(reqs, offset).daily, offset)
  {
    if reqs != [] {
      hide Record;
      DailyBucketsAreDays(reqs[..|reqs| - 1], offset);
      DayStartsAfter(RecordAll(reqs[..|reqs| - 1], offset), reqs[|reqs| - 1], offset);
    }
  }

  /** After any requests the daily table is the hourly one summed over days: for the day of every moment
      and every key, with or without a row, and so for every row there is. */
  lemma DailyTableIsHourlySum(reqs: seq<Request>, offset: int, t: int, key: Key)
    ensures var l, day := RecordAll(reqs, offset), DayBucket(t, offset);
      && At(l.daily, day, key) == HoursSum(l.hourly, day, key, 24)
      && forall i | 0 <= i < |l.daily| :: l.daily[i].totals == HoursSum(l.hourly, l.daily[i].bucket, l.daily[i].key, 24)
  {
    hide At, HoursSum, DayBucket, Consistent, RecordAll;
    var l, day := RecordAll(reqs, offset), DayBucket(t, offset);
    LedgerConsistent(reqs, offset);
    DayOfDay(t, offset);
    HoursAreFolds(l, offset, day, key, 24);
    DayIsItsHours(l.calls, offset, day, key);
    DailyAgrees(l, offset);
    AtIsFold(l.daily, l.calls, Daily(offset), day, key);
    DailyBucketsAreDays(reqs, offset);
    forall i: nat | i < |l.daily| ensures l.daily[i].totals == HoursSum(l.hourly, l.daily[i].bucket, l.daily[i].key, 24) {
      DailyIsHourlySum(l, offset, i);
    }
  }

  lemma DailyAgrees(l: Ledger, offset: int)
    requires Consistent(l, offset)
    ensures Agrees(l.daily, l.calls, Daily(offset))
  {}

  lemma DayStartsAfter(l: Ledger, req: Request, offset: int)
    requires DayStarts(l.daily, offset)
    ensures DayStarts(Record(l, req, offset, ALL_WRITTEN).ledger.daily, offset)
  {
    DayOfDay(CallOf(req).at, offset);
    hide DayBucket, TrimSpace, CallOf;
  }

  lemma DayOfDay(t: int, offset: int)
    ensures DayBucket(DayBucket(t, offset), offset) == DayBucket(t, offset)
  {
    var x := t + offset;
    DayUnique(x - x % DAY, x / DAY, 0);
  }

  // --- The tables as the service changes them ---

  class Tables {
    var calls: seq<Call>
    var hourly: seq<Row>
    var daily: seq<Row>
    const offset: int

    constructor (offset: int)
      ensures calls == [] && hourly == [] && daily == [] && this.offset == offset
    {
      calls, hourly, daily := [], [], [];
      this.offset := offset;
    }

    function Contents(): Ledger
      reads this
    {
      Ledger(calls, hourly, daily)
    }

    method RecordUsage(req: Request, w: Writes) returns (outcome: Result<bool, ()>)
      modifies this
      ensures Recorded(Contents(), outcome) == Record(old(Contents()), req, offset, w)
    {
      var call := CallOf(req);
      if call.id == "" { return Ok(false); }
      if !w.log { return Err(()); }
      if Logged(calls, call.id) { return Ok(false); }
      calls := calls + [call];
      if !w.hourly { return Err(()); }
      hourly := Upsert(hourly, HourBucket(call.at, offset), call.key, OneCall(call.tokens));
      if !w.daily { return Err(()); }
      daily := Upsert(daily, DayBucket(call.at, offset), call.key, OneCall(call.tokens));
      outcome := Ok(true);
    }
  }
}
