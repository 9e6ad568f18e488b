/** The algorithm test job executor as a state machine: one dispatcher, worker goroutines behind
    two semaphores, retry rounds with barriers, and status refreshes that read the items first and
    write the job row later. */
module TestJobProtocol {
  import opened Wrappers
  import opened TestJobRows

  const TOTAL_SLOTS := 5
  const VIDEO_SLOTS := 1

  // Where an item is. The dispatcher holds it while wanting a video slot and when it has all slots.
  datatype Place =
    | Idle | Queued | Wanting | Claimed
    | Analysing | Judged(ok: bool, again: bool) | Marked | Stored | Counted(counts: Counts) | Written | Freed

  // `again` is membership in the round's retry list. Queue and retry list are in sort order, so a
  // flag per item stands for both.
  datatype Cell = Cell(item: Item, runs: nat, place: Place, again: bool)

  datatype Main = Picking | Holding(index: nat) | LastRead | LastWrite(counts: Counts) | Finished

  datatype State = State(cells: seq<Cell>, row: Row, round: nat, limit: nat, total: nat, video: nat, main: Main)

  datatype Event =
    | TakeTotal(i: nat) | TakeVideo(i: nat) | Launch(i: nat)
    | Judge(i: nat, ok: bool, again: bool) | Mark(i: nat) | Enqueue(i: nat) | Store(i: nat)
    | Read(i: nat) | Write(i: nat) | FreeVideo(i: nat) | FreeTotal(i: nat)
    | NextRound | EndRounds | ReadLast | WriteLast

  function Items(cells: seq<Cell>): seq<Item> {
    seq(|cells|, i requires 0 <= i < |cells| => cells[i].item)
  }

  predicate NoneQueuedBefore(cells: seq<Cell>, n: nat)
    requires n <= |cells|
  {
    forall i | 0 <= i < n :: !cells[i].place.Queued?
  }

  // Every goroutine of the round has ended.
  predicate AllIdle(cells: seq<Cell>) {
    forall i | 0 <= i < |cells| :: cells[i].place == Idle
  }

  predicate AnyAgain(cells: seq<Cell>) {
    exists i :: 0 <= i < |cells| && cells[i].again
  }

  function Requeued(c: Cell): Cell {
    if c.again then c.(place := Queued, again := false) else c
  }

  function RequeuedAll(cells: seq<Cell>): seq<Cell> {
    seq(|cells|, i requires 0 <= i < |cells| => Requeued(cells[i]))
  }

  // --- Steps ---

  predicate At(s: State, i: nat, place: Place) {
    i < |s.cells| && s.cells[i].place == place
  }

  predicate Enabled(s: State, e: Event) {
    match e
    case TakeTotal(i) => s.main.Picking? && At(s, i, Queued) && NoneQueuedBefore(s.cells, i) && s.total < TOTAL_SLOTS
    case TakeVideo(i) => s.main == Holding(i) && At(s, i, Wanting) && s.video < VIDEO_SLOTS
    case Launch(i) => s.main == Holding(i) && At(s, i, Claimed)
    case Judge(i, ok, again) =>
      At(s, i, Analysing) && (again ==> s.cells[i].item.media == Image && !ok && s.round < s.limit)
    case Mark(i) => i < |s.cells| && s.cells[i].place.Judged? && s.cells[i].place.again
    case Enqueue(i) => At(s, i, Marked)
    case Store(i) => i < |s.cells| && s.cells[i].place.Judged? && !s.cells[i].place.again
    case Read(i) => At(s, i, Stored)
    case Write(i) => i < |s.cells| && s.cells[i].place.Counted?
    case FreeVideo(i) => At(s, i, Written) && s.cells[i].item.media == Video
    case FreeTotal(i) => i < |s.cells| && s.cells[i].place == if s.cells[i].item.media == Video then Freed else Written
    case NextRound => s.main.Picking? && AllIdle(s.cells) && AnyAgain(s.cells) && s.round < s.limit
    case EndRounds => s.main.Picking? && AllIdle(s.cells) && !(AnyAgain(s.cells) && s.round < s.limit)
    case ReadLast => s.main.LastRead?
    case WriteLast => s.main.LastWrite?
  }

  // The cell after an event of its own.
  function Moved(c: Cell, s: State, e: Event): Cell {
    match e
    case TakeTotal(_) => c.(place := if c.item.media == Video then Wanting else Claimed)
    case TakeVideo(_) => c.(place := Claimed)
    case Launch(_) =>
      // Only the first round marks the item running; a retried one still is.
      c.(place := Analysing, runs := c.runs + 1,
         item := if s.round == 0 && c.item.status == Pending then c.item.(status := Running) else c.item)
    case Judge(_, ok, again) => c.(place := Judged(ok, again))
    case Mark(_) => c.(place := Marked, item := c.item.(status := Running))
    case Enqueue(_) => c.(place := Stored, again := true)
    case Store(_) => c.(place := Stored, item := c.item.(status := if c.place.Judged? && c.place.ok then Success else Failed))
    case Read(_) => c.(place := Counted(Tally(Items(s.cells))))
    case Write(_) => c.(place := Written)
    case FreeVideo(_) => c.(place := Freed)
    case FreeTotal(_) => c.(place := Idle)
    case _ => c
  }

  function Next(s: State, e: Event): State
    requires Enabled(s, e)
  {
    match e
    case TakeTotal(i) => WithCell(s, e, i).(total := s.total + 1, main := Holding(i))
    case TakeVideo(i) => WithCell(s, e, i).(video := s.video + 1)
    case Launch(i) => WithCell(s, e, i).(main := Picking)
    case Write(i) => WithCell(s, e, i).(row := RowOf(s.cells[i].place.counts, |s.cells|))
    case FreeVideo(i) => WithCell(s, e, i).(video := if s.video > 0 then s.video - 1 else 0)
    case FreeTotal(i) => WithCell(s, e, i).(total := if s.total > 0 then s.total - 1 else 0)
    // A new round starts with a new limiter.
    case NextRound => s.(cells := RequeuedAll(s.cells), round := s.round + 1, total := 0, video := 0)
    case EndRounds => s.(main := LastRead)
    case ReadLast => s.(main := LastWrite(Tally(Items(s.cells))))
    case WriteLast => s.(row := RowOf(s.main.counts, |s.cells|), main := Finished)
    case _ => WithCell(s, e, e.i)
  }

  function WithCell(s: State, e: Event, i: nat): State
    requires i < |s.cells|
  {
    s.(cells := s.cells[i := Moved(s.cells[i], s, e)])
  }

  predicate Step(s: State, e: Event, t: State) {
    Enabled(s, e) && t == Next(s, e)
  }

  predicate Run(states: seq<State>, events: seq<Event>) {
    |states| == |events| + 1 && forall i | 0 <= i < |events| :: Step(states[i], events[i], states[i + 1])
  }

  // The executor's state once its rows are prepared and it starts to dispatch.
  function Start(items: seq<Item>, row: Row, limit: nat): State {
    State(seq(|items|, i requires 0 <= i < |items| =>
                Cell(items[i], 0, if items[i].status == Pending then Queued else Idle, false)),
          row, 0, limit, 0, 0, Picking)
  }

  // What preparing leaves: no item runs yet, pending ones are images or videos.
  predicate Startable(items: seq<Item>) {
    forall i | 0 <= i < |items| :: items[i].status != Running && (items[i].status == Pending ==> items[i].media != Unsupported)
  }

  predicate FullRun(states: seq<State>, events: seq<Event>) {
    Run(states, events) && StartsJob(states[0])
  }

  predicate StartsJob(s: State) {
    var items := Items(s.cells);
    && Startable(items) && HasPending(items)
    && s == Start(items, RowOf(Tally(items), |items|).(status := JobRunning), s.limit)
  }

  /** Preparing either leaves a job the executor can start, or every item is already terminal. */
  lemma PreparedStarts(items: seq<Item>, configOk: bool, promptOk: bool)
    requires forall i | 0 <= i < |items| :: items[i].status != Running
    ensures var rows := Prepared(items, configOk, promptOk);
      && |rows| == |items| && Startable(rows) && (HasPending(rows) || AllTerminal(rows))
      && (forall i | 0 <= i < |items| && Terminal(items[i].status) :: rows[i] == items[i])
  {
    var supported, rows := FailWhere(items, UnsupportedPending), Prepared(items, configOk, promptOk);
    forall i | 0 <= i < |items|
      ensures rows[i].status != Running && (rows[i].status == Pending ==> rows[i].media != Unsupported)
      ensures Terminal(items[i].status) ==> rows[i] == items[i]
    {
      var item := if UnsupportedPending(items[i]) then items[i].(status := Failed) else items[i];
      assert supported[i] == item;
      assert !configOk ==> rows[i] == if Unfinished(item) then item.(status := Failed) else item;
      assert configOk && !promptOk ==> rows[i] == if UnfinishedVideo(item) then item.(status := Failed) else item;
    }
  }

  // --- The invariant, item by item ---

  predicate Started(p: Place) { p.Analysing? || p.Judged? || p.Marked? }

  predicate Settled(p: Place) { p.Stored? || p.Counted? || p.Written? || p.Freed? || p.Idle? }

  predicate CellOk(c: Cell, round: nat, limit: nat) {
    var p := c.place;
    && (p.Queued? || p.Wanting? || p.Claimed? ==>
          && !c.again && c.item.status == (if round == 0 then Pending else Running) && c.runs == round
          && c.item.media != Unsupported && (round > 0 ==> c.item.media == Image) && (p.Wanting? ==> c.item.media == Video))
    && (Started(p) ==> !c.again && c.item.status == Running && c.runs == round + 1)
    && ((p.Judged? && p.again) || p.Marked? || c.again ==> c.item.media == Image && round < limit)
    && (p.Judged? && p.again ==> !p.ok)
    && (c.again ==> c.item.status == Running && c.runs == round + 1)
    && (Settled(p) && !c.again ==> Terminal(c.item.status))
    && (p.Freed? ==> c.item.media == Video)
    && c.runs <= round + 1 && (c.item.media != Image ==> c.runs <= 1)
    && (!p.Idle? && c.item.media != Image ==> round == 0)
  }

  predicate CellsOk(s: State) {
    forall i | 0 <= i < |s.cells| :: CellOk(s.cells[i], s.round, s.limit)
  }

  predicate HandOk(s: State) {
    && (s.main.Holding? ==> s.main.index < |s.cells| && (s.cells[s.main.index].place.Wanting? || s.cells[s.main.index].place.Claimed?))
    && (forall i | 0 <= i < |s.cells| && (s.cells[i].place.Wanting? || s.cells[i].place.Claimed?) :: s.main == Holding(i))
  }

  function TakesTotal(c: Cell): nat { OneIf(!c.place.Idle? && !c.place.Queued?) }
  function TakesVideo(c: Cell): nat {
    OneIf(c.item.media == Video && !c.place.Idle? && !c.place.Queued? && !c.place.Wanting? && !c.place.Freed?)
  }

  predicate SlotsOk(s: State) {
    && s.total == Sum(s.cells, TakesTotal) <= TOTAL_SLOTS
    && s.video == Sum(s.cells, TakesVideo) <= VIDEO_SLOTS
  }

  predicate EndOk(s: State) {
    && s.round <= s.limit
    && (s.main.LastRead? || s.main.LastWrite? || s.main.Finished? ==> AllIdle(s.cells) && AllTerminal(Items(s.cells)))
    && (s.main.LastWrite? ==> s.main.counts == Tally(Items(s.cells)))
    && (s.main.Finished? ==> s.row == RowOf(Tally(Items(s.cells)), |s.cells|))
  }

  predicate NotAbove(success: nat, failed: nat, items: seq<Item>) {
    success <= Sum(items, IsSuccess) && failed <= Sum(items, IsFailed)
  }

  predicate CountsOk(s: State) {
    var items := Items(s.cells);
    && NotAbove(s.row.success, s.row.failed, items)
    && (Ended(s.row.status) ==> s.row.success + s.row.failed == |items|)
    && (forall i | 0 <= i < |s.cells| && s.cells[i].place.Counted? ::
          NotAbove(s.cells[i].place.counts.success, s.cells[i].place.counts.failed, items))
  }

  predicate Inv(s: State) {
    CellsOk(s) && HandOk(s) && SlotsOk(s) && EndOk(s) && CountsOk(s)
  }

  // --- Events that move one cell ---

  predicate Local(e: Event) {
    !e.NextRound? && !e.EndRounds? && !e.ReadLast? && !e.WriteLast?
  }

  lemma CellStep(s: State, e: Event)
    requires Enabled(s, e) && Local(e) && CellsOk(s) && s.round <= s.limit
    ensures CellOk(Moved(s.cells[e.i], s, e), s.round, s.limit)
  {
    var c := s.cells[e.i];
    assert CellOk(c, s.round, s.limit);
  }

  lemma CellsStep(s: State, e: Event, t: State)
    requires Step(s, e, t) && CellsOk(s) && s.round <= s.limit
    ensures CellsOk(t)
  {
    hide CellOk, Moved;
    if Local(e) {
      CellStep(s, e);
    } else if e.NextRound? {
      forall i | 0 <= i < |t.cells| ensures CellOk(t.cells[i], t.round, t.limit) {
        RequeuedOk(s.cells[i], s.round, s.limit);
      }
    }
  }

  lemma RequeuedOk(c: Cell, round: nat, limit: nat)
    requires CellOk(c, round, limit) && c.place.Idle?
    ensures CellOk(Requeued(c), round + 1, limit)
  {}

  lemma HandStep(s: State, e: Event, t: State)
    requires Step(s, e, t) && HandOk(s) && EndOk(s)
    ensures HandOk(t)
  {}

  lemma SlotsStep(s: State, e: Event, t: State)
    requires Step(s, e, t) && SlotsOk(s) && CellsOk(s)
    ensures SlotsOk(t)
  {
    if Local(e) {
      assert CellOk(s.cells[e.i], s.round, s.limit);
      SumUpdate(s.cells, e.i, Moved(s.cells[e.i], s, e), TakesTotal);
      SumUpdate(s.cells, e.i, Moved(s.cells[e.i], s, e), TakesVideo);
    } else if e.NextRound? {
      NoneTaken(t.cells);
    }
  }

  lemma NoneTaken(cells: seq<Cell>)
    requires forall i | 0 <= i < |cells| :: cells[i].place.Idle? || cells[i].place.Queued?
    ensures Sum(cells, TakesTotal) == 0 && Sum(cells, TakesVideo) == 0
  {}

  lemma ItemsOfUpdate(cells: seq<Cell>, i: nat, c: Cell)
    requires i < |cells|
    ensures Items(cells[i := c]) == Items(cells)[i := c.item]
  {}

  // Finished items stay as they are, so the true counts never drop.
  lemma ItemsStep(s: State, e: Event, t: State)
    requires Step(s, e, t) && CellsOk(s)
    ensures Sum(Items(s.cells), IsSuccess) <= Sum(Items(t.cells), IsSuccess)
    ensures Sum(Items(s.cells), IsFailed) <= Sum(Items(t.cells), IsFailed)
  {
    if Local(e) {
      var c, d := s.cells[e.i], Moved(s.cells[e.i], s, e);
      assert c.item.status == d.item.status || !Terminal(c.item.status) by { assert CellOk(c, s.round, s.limit); }
      ItemsOfUpdate(s.cells, e.i, d);
      SumUpdate(Items(s.cells), e.i, d.item, IsSuccess);
      SumUpdate(Items(s.cells), e.i, d.item, IsFailed);
    } else {
      assert Items(t.cells) == Items(s.cells);
    }
  }

  lemma EndStep(s: State, e: Event, t: State)
    requires Step(s, e, t) && CellsOk(s) && EndOk(s)
    ensures EndOk(t)
  {}

  // The row after a step: unchanged, or written from counts that were read before.
  lemma RowStep(s: State, e: Event, t: State)
    requires Step(s, e, t) && CellsOk(s) && EndOk(s) && CountsOk(s)
    ensures NotAbove(t.row.success, t.row.failed, Items(s.cells))
    ensures Ended(t.row.status) ==> t.row.success + t.row.failed == |s.cells|
  {
    hide CellOk, CellsOk, Moved;
    if e.Write? { RowStatus(s.cells[e.i].place.counts, |s.cells|); }
    if e.WriteLast? { RowStatus(s.main.counts, |s.cells|); }
  }

  // The counts a worker holds after a step: what it held before, or the true ones just read.
  lemma CountedStep(s: State, e: Event, t: State, i: nat)
    requires Step(s, e, t) && CountsOk(s) && i < |t.cells| && t.cells[i].place.Counted?
    ensures |t.cells| == |s.cells| && NotAbove(t.cells[i].place.counts.success, t.cells[i].place.counts.failed, Items(s.cells))
  {
    hide Sum;
    if e.NextRound? {
      assert false;
    } else if e.Read? && e.i == i {
      assert t.cells[i].place.counts == Tally(Items(s.cells));
    } else {
      assert t.cells[i].place == s.cells[i].place;
    }
  }

  lemma CountsStep(s: State, e: Event, t: State)
    requires Step(s, e, t) && CellsOk(s) && EndOk(s) && CountsOk(s)
    ensures CountsOk(t)
  {
    hide CellOk, Moved, Enabled, Next, Sum;
    ItemsStep(s, e, t);
    RowStep(s, e, t);
    assert |t.cells| == |s.cells| by { CellsKept(s, e, t); }
    forall i: nat | i < |t.cells| && t.cells[i].place.Counted?
      ensures NotAbove(t.cells[i].place.counts.success, t.cells[i].place.counts.failed, Items(t.cells))
    {
      CountedStep(s, e, t, i);
    }
  }

  lemma CellsKept(s: State, e: Event, t: State)
    requires Step(s, e, t)
    ensures |t.cells| == |s.cells|
  {}

  lemma RowStatus(c: Counts, total: nat)
    ensures Ended(RowOf(c, total).status) <==> c.success + c.failed == total
  {}

  lemma StepKeepsInv(s: State, e: Event, t: State)
    requires Inv(s) && Step(s, e, t)
    ensures Inv(t)
  {
    CellsStep(s, e, t);
    HandStep(s, e, t);
    SlotsStep(s, e, t);
    EndStep(s, e, t);
    CountsStep(s, e, t);
  }

  lemma StartInv(s: State)
    requires StartsJob(s)
    ensures Inv(s)
  {
    NoneTaken(s.cells);
    TerminalSum(Items(s.cells));
    forall i | 0 <= i < |s.cells| ensures CellOk(s.cells[i], 0, s.limit) {
      assert Items(s.cells)[i] == s.cells[i].item;
    }
  }

  lemma {:induction false} RunKeepsInv(states: seq<State>, events: seq<Event>, n: nat)
    requires FullRun(states, events) && n <= |events|
    ensures Inv(states[n])
  {
    if n == 0 {
      StartInv(states[0]);
    } else {
      RunKeepsInv(states, events, n - 1);
      StepKeepsInv(states[n - 1], events[n - 1], states[n]);
    }
  }

  // --- Results ---

  function IsAnalysing(c: Cell): nat { OneIf(c.place.Analysing?) }
  function IsAnalysingVideo(c: Cell): nat { OneIf(c.place.Analysing? && c.item.media == Video) }

  /** At every step of every run at most five analyses, and at most one video, are in flight; an
      image has been analysed at most 1 + limit times and a video at most once. */
  lemma InFlight(states: seq<State>, events: seq<Event>, n: nat)
    requires FullRun(states, events) && n <= |events|
    ensures Sum(states[n].cells, IsAnalysing) <= TOTAL_SLOTS
    ensures Sum(states[n].cells, IsAnalysingVideo) <= VIDEO_SLOTS
    ensures forall i | 0 <= i < |states[n].cells| ::
      states[n].cells[i].runs <= if states[n].cells[i].item.media == Image then 1 + states[n].limit else 1
  {
    RunKeepsInv(states, events, n);
    SumPointwise(states[n].cells, states[n].cells, IsAnalysing, TakesTotal);
    SumPointwise(states[n].cells, states[n].cells, IsAnalysingVideo, TakesVideo);
    assert forall i | 0 <= i < |states[n].cells| :: CellOk(states[n].cells[i], states[n].round, states[n].limit);
  }

  /** No refresh, however stale, ever shows counts above the true ones or ends the job early. */
  lemma RefreshNeverOverstates(states: seq<State>, events: seq<Event>, n: nat)
    requires FullRun(states, events) && n <= |events|
    ensures NotAbove(states[n].row.success, states[n].row.failed, Items(states[n].cells))
    ensures Ended(states[n].row.status) ==> AllTerminal(Items(states[n].cells))
  {
    RunKeepsInv(states, events, n);
    TerminalSum(Items(states[n].cells));
  }

  /** A finished executor leaves every item terminal, all slots free, and the job row exactly what
      the items say, whatever stale refreshes were written on the way. */
  lemma FinishedIsComplete(states: seq<State>, events: seq<Event>)
    requires FullRun(states, events) && states[|events|].main.Finished?
    ensures var s := states[|events|];
      && AllTerminal(Items(s.cells)) && s.row == RowOf(Tally(Items(s.cells)), |s.cells|)
      && Ended(s.row.status) && s.total == 0 && s.video == 0
  {
    RunKeepsInv(states, events, |events|);
    StatusMeans(Items(states[|events|].cells));
    NoneTaken(states[|events|].cells);
  }

  function Two(a: Cell, b: Cell, row: Row, total: nat, main: Main): State {
    State([a, b], row, 0, 0, total, 0, main)
  }

  function ImageAt(status: Status, runs: nat, place: Place): Cell {
    Cell(Item(Image, status), runs, place, false)
  }

  const FRESH := ImageAt(Pending, 0, Queued)
  const BUSY := ImageAt(Running, 1, Analysing)
  const JUDGED := ImageAt(Running, 1, Judged(true, false))
  const STORED := ImageAt(Success, 1, Stored)
  const EARLY := ImageAt(Success, 1, Counted(Counts(1, 0, 1)))
  const LATE := ImageAt(Success, 1, Counted(Counts(2, 0, 0)))
  const ZERO := Row(JobRunning, 0, 0)

  lemma LaunchBoth()
    ensures Step(Two(FRESH, FRESH, ZERO, 0, Picking), TakeTotal(0), Two(FRESH.(place := Claimed), FRESH, ZERO, 1, Holding(0)))
    ensures Step(Two(FRESH.(place := Claimed), FRESH, ZERO, 1, Holding(0)), Launch(0), Two(BUSY, FRESH, ZERO, 1, Picking))
    ensures Step(Two(BUSY, FRESH, ZERO, 1, Picking), TakeTotal(1), Two(BUSY, FRESH.(place := Claimed), ZERO, 2, Holding(1)))
    ensures Step(Two(BUSY, FRESH.(place := Claimed), ZERO, 2, Holding(1)), Launch(1), Two(BUSY, BUSY, ZERO, 2, Picking))
  {}

  lemma JudgeBoth()
    ensures Step(Two(BUSY, BUSY, ZERO, 2, Picking), Judge(0, true, false), Two(JUDGED, BUSY, ZERO, 2, Picking))
    ensures Step(Two(JUDGED, BUSY, ZERO, 2, Picking), Store(0), Two(STORED, BUSY, ZERO, 2, Picking))
    ensures Step(Two(STORED, BUSY, ZERO, 2, Picking), Judge(1, true, false), Two(STORED, JUDGED, ZERO, 2, Picking))
    ensures Step(Two(EARLY, JUDGED, ZERO, 2, Picking), Store(1), Two(EARLY, STORED, ZERO, 2, Picking))
  {}

  lemma TallyOfTwo(a: Cell, b: Cell)
    ensures Tally(Items([a, b])) ==
      Counts(IsSuccess(a.item) + IsSuccess(b.item), IsFailed(a.item) + IsFailed(b.item), IsRunning(a.item) + IsRunning(b.item))
  {
    assert Items([a, b]) == [a.item, b.item];
    SumOfTwo(a.item, b.item, IsSuccess);
    SumOfTwo(a.item, b.item, IsFailed);
    SumOfTwo(a.item, b.item, IsRunning);
  }

  lemma ReadBoth()
    ensures Step(Two(STORED, JUDGED, ZERO, 2, Picking), Read(0), Two(EARLY, JUDGED, ZERO, 2, Picking))
    ensures Step(Two(EARLY, STORED, ZERO, 2, Picking), Read(1), Two(EARLY, LATE, ZERO, 2, Picking))
    ensures Step(Two(EARLY, LATE, ZERO, 2, Picking), Write(1),
                 Two(EARLY, LATE.(place := Written), Row(Completed, 2, 0), 2, Picking))
  {
    TallyOfTwo(STORED, JUDGED);
    TallyOfTwo(EARLY, STORED);
  }

  lemma StartsWithTwo()
    ensures StartsJob(Two(FRESH, FRESH, ZERO, 0, Picking))
  {
    TallyOfTwo(FRESH, FRESH);
    assert Items([FRESH, FRESH])[0].status == Pending;
  }

  lemma EarlyWritesLast()
    ensures var s := Two(EARLY, LATE.(place := Written), Row(Completed, 2, 0), 2, Picking);
      s.row.status == Completed && Enabled(s, Write(0)) && Next(s, Write(0)).row == Row(JobRunning, 1, 0)
  {}

  /** A job row may read completed and then running again: a worker that counted early writes last. */
  lemma StaleRefreshExample() returns (states: seq<State>, events: seq<Event>)
    ensures FullRun(states, events) && states[|events|].row.status == Completed
    ensures Enabled(states[|events|], Write(0)) && Next(states[|events|], Write(0)).row == Row(JobRunning, 1, 0)
  {
    hide Two, Step, Enabled, Next, StartsJob, ImageAt;
    events := [TakeTotal(0), Launch(0), TakeTotal(1), Launch(1), Judge(0, true, false), Store(0), Judge(1, true, false),
               Read(0), Store(1), Read(1), Write(1)];
    states := [Two(FRESH, FRESH, ZERO, 0, Picking), Two(FRESH.(place := Claimed), FRESH, ZERO, 1, Holding(0)),
               Two(BUSY, FRESH, ZERO, 1, Picking), Two(BUSY, FRESH.(place := Claimed), ZERO, 2, Holding(1)),
               Two(BUSY, BUSY, ZERO, 2, Picking), Two(JUDGED, BUSY, ZERO, 2, Picking), Two(STORED, BUSY, ZERO, 2, Picking),
               Two(STORED, JUDGED, ZERO, 2, Picking), Two(EARLY, JUDGED, ZERO, 2, Picking), Two(EARLY, STORED, ZERO, 2, Picking),
               Two(EARLY, LATE, ZERO, 2, Picking), Two(EARLY, LATE.(place := Written), Row(Completed, 2, 0), 2, Picking)];
    assert Run(states, events) by {
      LaunchBoth();
      JudgeBoth();
      ReadBoth();
    }
    StartsWithTwo();
    EarlyWritesLast();
  }

  // --- When an ended row stays ended ---

  // Some worker still holds counts it read before the last item ended.
  ghost predicate HoldsIncomplete(s: State) {
    exists i :: 0 <= i < |s.cells| && IncompleteAt(s, i)
  }

  predicate IncompleteAt(s: State, i: nat)
    requires i < |s.cells|
  {
    s.cells[i].place.Counted? && s.cells[i].place.counts.success + s.cells[i].place.counts.failed < |s.cells|
  }

  predicate RowEnded(s: State) { Ended(s.row.status) }

  lemma EndedStep(s: State, e: Event, t: State)
    requires Inv(s) && Step(s, e, t) && RowEnded(s) && !HoldsIncomplete(s)
    ensures RowEnded(t) && !HoldsIncomplete(t)
  {
    hide CellOk, Sum;
    TerminalSum(Items(s.cells));
    CellsKept(s, e, t);
    if e.Write? {
      assert !IncompleteAt(s, e.i);
      RowStatus(s.cells[e.i].place.counts, |s.cells|);
    }
    if e.WriteLast? { RowStatus(s.main.counts, |s.cells|); }
    forall i: nat | i < |t.cells| ensures !IncompleteAt(t, i) {
      assert !IncompleteAt(s, i);
      if t.cells[i].place.Counted? { CountedStep(s, e, t, i); }
    }
  }

  lemma {:induction false} EndedOnRuns(states: seq<State>, events: seq<Event>, n: nat)
    requires Run(states, events) && n <= |events| && Inv(states[0]) && RowEnded(states[0]) && !HoldsIncomplete(states[0])
    ensures Inv(states[n]) && RowEnded(states[n]) && !HoldsIncomplete(states[n])
  {
    if n > 0 {
      EndedOnRuns(states, events, n - 1);
      StepKeepsInv(states[n - 1], events[n - 1], states[n]);
      EndedStep(states[n - 1], events[n - 1], states[n]);
    }
  }

  // The row is ended at the end of every run that starts in `s`.
  ghost predicate StaysEnded(s: State) {
    forall states, events :: Run(states, events) && states[0] == s ==> RowEnded(states[|events|])
  }

  /** Once a job row reads completed, failed or partly failed, it does so in every continuation of
      the run if and only if no worker still holds incomplete counts to write. */
  lemma EndedStaysIff(states: seq<State>, events: seq<Event>)
    requires FullRun(states, events) && RowEnded(states[|events|])
    ensures StaysEnded(states[|events|]) <==> !HoldsIncomplete(states[|events|])
  {
    var s := states[|events|];
    RunKeepsInv(states, events, |events|);
    if HoldsIncomplete(s) {
      var i: nat :| i < |s.cells| && IncompleteAt(s, i);
      var t := Next(s, Write(i));
      RowStatus(s.cells[i].place.counts, |s.cells|);
      assert Run([s, t], [Write(i)]) && [s, t][0] == s && !RowEnded([s, t][|[Write(i)]|]);
    } else {
      forall more, others | Run(more, others) && more[0] == s ensures RowEnded(more[|others|]) {
        EndedOnRuns(more, others, |others|);
      }
    }
  }

  // --- Progress ---

  // Workers never wait: each can always take its next step.
  lemma WorkerCanStep(s: State, i: nat) returns (e: Event)
    requires i < |s.cells| && CellOk(s.cells[i], s.round, s.limit)
    requires Started(s.cells[i].place) || (Settled(s.cells[i].place) && !s.cells[i].place.Idle?)
    ensures Enabled(s, e)
  {
    match s.cells[i].place {
      case Analysing => e := Judge(i, true, false);
      case Judged(_, again) => e := if again then Mark(i) else Store(i);
      case Marked => e := Enqueue(i);
      case Stored => e := Read(i);
      case Counted(_) => e := Write(i);
      case Written => e := if s.cells[i].item.media == Video then FreeVideo(i) else FreeTotal(i);
      case Freed => e := FreeTotal(i);
    }
  }

  lemma FirstQueued(cells: seq<Cell>, n: nat) returns (i: nat)
    requires n < |cells| && cells[n].place.Queued?
    ensures i < |cells| && cells[i].place.Queued? && NoneQueuedBefore(cells, i)
  {
    i := 0;
    while !cells[i].place.Queued?
      invariant i <= n && NoneQueuedBefore(cells, i)
      decreases n - i
    {
      i := i + 1;
    }
  }

  predicate WorkerAt(s: State, i: nat) {
    i < |s.cells| && (Started(s.cells[i].place) || (Settled(s.cells[i].place) && !s.cells[i].place.Idle?))
  }

  /** The executor never deadlocks: until it has finished, some step is enabled. In particular the
      dispatcher that holds a total slot and waits for the video slot is never stuck. */
  lemma NeverStuck(s: State) returns (e: Event)
    requires Inv(s) && !s.main.Finished?
    ensures Enabled(s, e)
  {
    if w: nat :| WorkerAt(s, w) {
      assert CellOk(s.cells[w], s.round, s.limit);
      e := WorkerCanStep(s, w);
    } else {
      e := DispatcherCanStep(s);
    }
  }

  lemma DispatcherCanStep(s: State) returns (e: Event)
    requires Inv(s) && !s.main.Finished? && forall i | 0 <= i < |s.cells| :: !WorkerAt(s, i)
    ensures Enabled(s, e)
  {
    match s.main {
      case Holding(i) =>
        if s.cells[i].place.Claimed? {
          e := Launch(i);
        } else {
          e := TakeVideo(i);
          forall j | 0 <= j < |s.cells| ensures TakesVideo(s.cells[j]) == 0 { assert !WorkerAt(s, j); }
          ZeroSum(s.cells, TakesVideo);
        }
      case Picking =>
        if q :| 0 <= q < |s.cells| && s.cells[q].place.Queued? {
          var i := FirstQueued(s.cells, q);
          e := TakeTotal(i);
          forall j | 0 <= j < |s.cells| ensures TakesTotal(s.cells[j]) == 0 { assert !WorkerAt(s, j); }
          ZeroSum(s.cells, TakesTotal);
        } else {
          forall i | 0 <= i < |s.cells| ensures s.cells[i].place == Idle { assert !WorkerAt(s, i) && !s.cells[i].place.Queued?; }
          e := if AnyAgain(s.cells) && s.round < s.limit then NextRound else EndRounds;
        }
      case LastRead => e := ReadLast;
      case LastWrite(_) => e := WriteLast;
    }
  }

  // --- Every run ends ---

  const RUN_COST := 11

  function QueueRank(c: Cell, round: nat, limit: nat): nat
    requires round <= limit
  {
    match c.place
    case Queued => RUN_COST * (limit - round + 1)
    case Wanting => RUN_COST * (limit - round + 1) - 1
    case Claimed => RUN_COST * (limit - round + 1) - 2
    case Analysing => RUN_COST * (limit - round) + 8
    case Judged(_, _) => RUN_COST * (limit - round) + 7
    case Marked => RUN_COST * (limit - round) + 6
    case _ => if c.again then RUN_COST * (limit - round) else 0
  }

  function WorkerRank(c: Cell): nat {
    match c.place
    case Stored => 5
    case Counted(_) => 4
    case Written => 3
    case Freed => 2
    case _ => 0
  }

  function CellRank(c: Cell, round: nat, limit: nat): nat {
    WorkerRank(c) + if round <= limit then QueueRank(c, round, limit) else 0
  }

  function MainRank(m: Main): nat {
    match m
    case Picking => 3
    case Holding(_) => 3
    case LastRead => 2
    case LastWrite(_) => 1
    case Finished => 0
  }

  ghost function Rank(s: State): nat {
    Sum(s.cells, (c: Cell) => CellRank(c, s.round, s.limit)) + MainRank(s.main) +
    if s.round <= s.limit then s.limit - s.round else 0
  }

  lemma CellRankStep(s: State, e: Event)
    requires Enabled(s, e) && Local(e) && CellsOk(s) && s.round <= s.limit
    ensures CellRank(Moved(s.cells[e.i], s, e), s.round, s.limit) < CellRank(s.cells[e.i], s.round, s.limit)
  {}

  lemma RankStep(s: State, e: Event, t: State)
    requires Inv(s) && Step(s, e, t)
    ensures Rank(t) < Rank(s)
  {
    hide CellRank, CellOk, Moved;
    if Local(e) {
      CellRankStep(s, e);
      SumUpdate(s.cells, e.i, Moved(s.cells[e.i], s, e), (c: Cell) => CellRank(c, s.round, s.limit));
    } else if e.NextRound? {
      forall i | 0 <= i < |s.cells| ensures CellRank(t.cells[i], t.round, t.limit) <= CellRank(s.cells[i], s.round, s.limit) {
        RequeuedRank(s.cells[i], s.round, s.limit);
      }
      SumPointwise(t.cells, s.cells, (c: Cell) => CellRank(c, t.round, t.limit), (c: Cell) => CellRank(c, s.round, s.limit));
    }
  }

  lemma RequeuedRank(c: Cell, round: nat, limit: nat)
    requires round < limit && c.place.Idle?
    ensures CellRank(Requeued(c), round + 1, limit) <= CellRank(c, round, limit)
  {}

  /** Every run ends: a run from the start takes at most Rank steps, and while the executor has not
      finished another step is enabled. */
  lemma {:induction false} EveryRunEnds(states: seq<State>, events: seq<Event>)
    requires FullRun(states, events)
    ensures |events| + Rank(states[|events|]) <= Rank(states[0])
  {
    hide Inv, Rank, Enabled, Next, StartsJob;
    if events != [] {
      EveryRunEnds(states[..|events|], events[..|events| - 1]);
      RunKeepsInv(states, events, |events| - 1);
      assert states[..|events|][|events| - 1] == states[|events| - 1];
      RankStep(states[|events| - 1], events[|events| - 1], states[|events|]);
    }
  }

  /** A run that cannot be continued has finished, with everything that then holds. */
  lemma StuckMeansFinished(states: seq<State>, events: seq<Event>)
    requires FullRun(states, events) && forall e :: !Enabled(states[|events|], e)
    ensures var s := states[|events|];
      && s.main.Finished? && AllTerminal(Items(s.cells)) && s.row == RowOf(Tally(Items(s.cells)), |s.cells|)
      && forall i | 0 <= i < |s.cells| :: s.cells[i].runs <= if s.cells[i].item.media == Image then 1 + s.limit else 1
  {
    RunKeepsInv(states, events, |events|);
    if !states[|events|].main.Finished? {
      var e := NeverStuck(states[|events|]);
    } else {
      FinishedIsComplete(states, events);
      InFlight(states, events, |events|);
    }
  }

  function Launches(events: seq<Event>, i: nat): nat {
    if events == [] then 0 else Launches(events[..|events| - 1], i) + OneIf(events[|events| - 1] == Launch(i))
  }

  lemma {:induction false} RunsAreLaunches(states: seq<State>, events: seq<Event>, i: nat)
    requires FullRun(states, events) && i < |states[0].cells|
    ensures |states[|events|].cells| == |states[0].cells| && states[|events|].cells[i].runs == Launches(events, i)
    ensures states[|events|].limit == states[0].limit && states[|events|].cells[i].item.media == states[0].cells[i].item.media
  {
    if events != [] {
      RunsAreLaunches(states[..|events|], events[..|events| - 1], i);
      var s, e := states[|events| - 1], events[|events| - 1];
      assert states[..|events|][|events| - 1] == s;
      assert Step(s, e, states[|events|]);
    }
  }

  /** Over a whole run an image is analysed at most 1 + limit times and a video at most once. */
  lemma AnalysesBounded(states: seq<State>, events: seq<Event>, i: nat)
    requires FullRun(states, events) && i < |states[0].cells|
    ensures Launches(events, i) <= if states[0].cells[i].item.media == Image then 1 + states[0].limit else 1
  {
    RunsAreLaunches(states, events, i);
    InFlight(states, events, |events|);
  }

  // --- The verdicts ---

  // What the last analysis of item `i` said.
  function LastVerdict(events: seq<Event>, i: nat): Option<bool> {
    if events == [] then None
    else
      match events[|events| - 1]
      case Judge(j, ok, _) => if j == i then Some(ok) else LastVerdict(events[..|events| - 1], i)
      case _ => LastVerdict(events[..|events| - 1], i)
  }

  // What item `i` shows once its verdict is stored; without one it stays as it was.
  function Shown(item: Item, verdict: Option<bool>): Item {
    match verdict
    case None => item
    case Some(ok) => Item(item.media, if ok then Success else Failed)
  }

  // Storing writes the verdict, and a retry is only due after a failure.
  predicate VerdictOk(c: Cell, first: Item, verdict: Option<bool>) {
    && c.item.media == first.media
    && (c.place.Judged? ==> verdict == Some(c.place.ok))
    && (c.place.Marked? || c.again ==> verdict == Some(false))
    && (Terminal(c.item.status) ==> c.item == Shown(first, verdict))
  }

  /** Storing an item writes exactly what its analysis said. */
  lemma StoreSaves(s: State, i: nat)
    requires Enabled(s, Store(i))
    ensures Next(s, Store(i)).cells[i].item.status == Success <==> s.cells[i].place.ok
    ensures Next(s, Store(i)).cells[i].item.status == Failed <==> !s.cells[i].place.ok
  {}

  lemma VerdictStep(s: State, e: Event, t: State, i: nat, first: Item, verdict: Option<bool>)
    requires Step(s, e, t) && CellsOk(s) && i < |s.cells| && VerdictOk(s.cells[i], first, verdict)
    ensures |t.cells| == |s.cells|
    ensures VerdictOk(t.cells[i], first, match e case Judge(j, ok, _) => if j == i then Some(ok) else verdict case _ => verdict)
  {
    assert CellOk(s.cells[i], s.round, s.limit);
    if Local(e) && e.i != i { assert t.cells[i] == s.cells[i]; }
  }

  lemma {:induction false} VerdictsKept(states: seq<State>, events: seq<Event>, i: nat, n: nat)
    requires FullRun(states, events) && i < |states[0].cells| && n <= |events|
    ensures |states[n].cells| == |states[0].cells|
    ensures VerdictOk(states[n].cells[i], states[0].cells[i].item, LastVerdict(events[..n], i))
  {
    hide VerdictOk, Step, CellsOk, Inv;
    if n == 0 {
      VerdictStarts(states[0], i);
    } else {
      VerdictsKept(states, events, i, n - 1);
      RunKeepsInv(states, events, n - 1);
      CellsOfInv(states[n - 1]);
      assert events[..n][..n - 1] == events[..n - 1] && events[..n][n - 1] == events[n - 1];
      VerdictStep(states[n - 1], events[n - 1], states[n], i, states[0].cells[i].item, LastVerdict(events[..n - 1], i));
    }
  }

  lemma CellsOfInv(s: State)
    requires Inv(s)
    ensures CellsOk(s)
  {}

  lemma VerdictStarts(s: State, i: nat)
    requires StartsJob(s) && i < |s.cells|
    ensures VerdictOk(s.cells[i], s.cells[i].item, None)
  {}

  /** In every finished run an item that was queued has a verdict, and shows the last one; the others are
      untouched; and the job row holds exactly the counts and the status of these verdicts. */
  lemma FinishedShowsVerdicts(states: seq<State>, events: seq<Event>)
    requires FullRun(states, events) && states[|events|].main.Finished?
    ensures var first, last := Items(states[0].cells), Items(states[|events|].cells);
      && |last| == |first|
      && (forall i | 0 <= i < |first| :: first[i].status == Pending <==> LastVerdict(events, i).Some?)
      && (forall i | 0 <= i < |first| :: last[i] == Shown(first[i], LastVerdict(events, i)))
      && states[|events|].row == RowOf(Tally(last), |first|)
  {
    FinishedIsComplete(states, events);
    VerdictsOfAll(states, events);
    var first, last := Items(states[0].cells), Items(states[|events|].cells);
    forall i | 0 <= i < |first| ensures first[i].status == Pending <==> LastVerdict(events, i).Some? {
      assert Terminal(last[i].status);
      OnlyQueuedJudged(states, events, i, |events|);
      assert events[..|events|] == events;
    }
  }

  lemma VerdictsOfAll(states: seq<State>, events: seq<Event>)
    requires FullRun(states, events) && AllTerminal(Items(states[|events|].cells))
    ensures |states[|events|].cells| == |states[0].cells|
    ensures forall i | 0 <= i < |states[0].cells| :: states[|events|].cells[i].item == Shown(states[0].cells[i].item, LastVerdict(events, i))
  {
    VerdictsLength(states, events, |events|);
    forall i: nat | i < |states[0].cells|
      ensures states[|events|].cells[i].item == Shown(states[0].cells[i].item, LastVerdict(events, i))
    {
      VerdictsKept(states, events, i, |events|);
      assert events[..|events|] == events;
      assert Terminal(Items(states[|events|].cells)[i].status);
    }
  }

  lemma {:induction false} VerdictsLength(states: seq<State>, events: seq<Event>, n: nat)
    requires FullRun(states, events) && n <= |events|
    ensures |states[n].cells| == |states[0].cells|
  {
    if n > 0 {
      VerdictsLength(states, events, n - 1);
      CellsKept(states[n - 1], events[n - 1], states[n]);
    }
  }

  // An item that was terminal from the start is never picked.
  lemma {:induction false} OnlyQueuedJudged(states: seq<State>, events: seq<Event>, i: nat, n: nat)
    requires FullRun(states, events) && i < |states[0].cells| && n <= |events|
    ensures |states[n].cells| == |states[0].cells|
    ensures states[0].cells[i].item.status != Pending ==>
      LastVerdict(events[..n], i) == None && states[n].cells[i] == states[0].cells[i]
  {
    hide StartsJob, Enabled, Next;
    NotPendingIsIdle(states[0], i);
    if n > 0 {
      OnlyQueuedJudged(states, events, i, n - 1);
      assert events[..n][..n - 1] == events[..n - 1] && events[..n][n - 1] == events[n - 1];
      UntouchedStep(states[n - 1], events[n - 1], states[n], i);
    }
  }

  lemma NotPendingIsIdle(s: State, i: nat)
    requires StartsJob(s) && i < |s.cells|
    ensures s.cells[i].item.status != Pending ==> s.cells[i].place == Idle && !s.cells[i].again
  {
    assert Items(s.cells)[i] == s.cells[i].item;
  }

  lemma UntouchedStep(s: State, e: Event, t: State, i: nat)
    requires Step(s, e, t) && i < |s.cells|
    ensures |t.cells| == |s.cells|
    ensures s.cells[i].place == Idle && !s.cells[i].again ==> t.cells[i] == s.cells[i] && !(e.Judge? && e.i == i)
  {}

  // --- Every retry asked for takes place ---

  // How often item `i` was judged, and how often the verdict asked for another analysis.
  function Judgements(events: seq<Event>, i: nat): nat {
    if events == [] then 0
    else
      var e := events[|events| - 1];
      Judgements(events[..|events| - 1], i) + OneIf(e.Judge? && e.i == i)
  }

  function Repeats(events: seq<Event>, i: nat): nat {
    if events == [] then 0
    else
      var e := events[|events| - 1];
      Repeats(events[..|events| - 1], i) + OneIf(e.Judge? && e.i == i && e.again)
  }

  // No analysis of the item is due any more.
  predicate Through(c: Cell) {
    (c.place.Judged? && !c.place.again) || (Settled(c.place) && !c.again)
  }

  lemma ThroughStep(s: State, e: Event, t: State, i: nat)
    requires Step(s, e, t) && CellsOk(s) && i < |s.cells|
    ensures |t.cells| == |s.cells|
    ensures OneIf(Through(t.cells[i])) + OneIf(e.Judge? && e.i == i && e.again) == OneIf(Through(s.cells[i])) + OneIf(e.Judge? && e.i == i)
  {
    assert CellOk(s.cells[i], s.round, s.limit);
    if Local(e) && e.i != i { assert t.cells[i] == s.cells[i]; }
  }

  lemma {:induction false} DueAfter(states: seq<State>, events: seq<Event>, i: nat, n: nat)
    requires FullRun(states, events) && i < |states[0].cells| && n <= |events|
    ensures |states[n].cells| == |states[0].cells|
    ensures Judgements(events[..n], i) + OneIf(Through(states[0].cells[i])) == Repeats(events[..n], i) + OneIf(Through(states[n].cells[i]))
  {
    hide Through, Step, CellsOk, Inv;
    if n > 0 {
      DueAfter(states, events, i, n - 1);
      RunKeepsInv(states, events, n - 1);
      CellsOfInv(states[n - 1]);
      assert events[..n][..n - 1] == events[..n - 1] && events[..n][n - 1] == events[n - 1];
      ThroughStep(states[n - 1], events[n - 1], states[n], i);
    }
  }

  /** In every finished run a queued item was analysed once, and once more for each verdict that asked for it. */
  lemma EveryRetryTakesPlace(states: seq<State>, events: seq<Event>, i: nat)
    requires FullRun(states, events) && states[|events|].main.Finished? && i < |states[0].cells|
    ensures states[0].cells[i].item.status == Pending ==> Judgements(events, i) == 1 + Repeats(events, i)
  {
    DueAfter(states, events, i, |events|);
    assert events[..|events|] == events;
    FinishedIsComplete(states, events);
    RunKeepsInv(states, events, |events|);
    var last := states[|events|];
    assert CellOk(last.cells[i], last.round, last.limit) && Terminal(Items(last.cells)[i].status);
    assert Items(states[0].cells)[i] == states[0].cells[i].item;
  }

  // --- The order of dispatch ---

  // No event of these starts a new round.
  predicate SameRound(events: seq<Event>, a: nat, n: nat)
    requires n <= |events|
  {
    forall k | a < k < n :: !events[k].NextRound?
  }

  predicate NoneQueuedUpTo(cells: seq<Cell>, j: nat) {
    j < |cells| && forall i | 0 <= i <= j :: !cells[i].place.Queued?
  }

  lemma TakenLeavesQueue(s: State, j: nat, t: State)
    requires Step(s, TakeTotal(j), t)
    ensures NoneQueuedUpTo(t.cells, j)
  {
    forall i | 0 <= i < j ensures !t.cells[i].place.Queued? {
      assert t.cells[i] == s.cells[i] && !s.cells[i].place.Queued?;
    }
  }

  lemma QueueStep(s: State, e: Event, t: State, j: nat)
    requires Step(s, e, t) && NoneQueuedUpTo(s.cells, j) && !e.NextRound?
    ensures NoneQueuedUpTo(t.cells, j)
  {}

  lemma {:induction false} QueueStaysBehind(states: seq<State>, events: seq<Event>, a: nat, n: nat)
    requires Run(states, events) && a < n <= |events| && events[a].TakeTotal? && SameRound(events, a, n)
    ensures NoneQueuedUpTo(states[n].cells, events[a].i)
  {
    hide Step, NoneQueuedUpTo;
    if n == a + 1 {
      TakenLeavesQueue(states[a], events[a].i, states[n]);
    } else {
      QueueStaysBehind(states, events, a, n - 1);
      QueueStep(states[n - 1], events[n - 1], states[n], events[a].i);
    }
  }

  /** Within a round the items are dispatched in their order. */
  lemma DispatchedInOrder(states: seq<State>, events: seq<Event>, a: nat, b: nat)
    requires Run(states, events) && a < b < |events| && events[a].TakeTotal? && events[b].TakeTotal? && SameRound(events, a, b)
    ensures events[a].i < events[b].i
  {
    QueueStaysBehind(states, events, a, b);
    assert Step(states[b], events[b], states[b + 1]);
  }
}
