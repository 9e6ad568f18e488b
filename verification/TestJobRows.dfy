/** The rows of an algorithm test job: items in sort order, the job row, and the writes the
    executor makes to them. Database writes succeed. */
module TestJobRows {
  datatype Media = Image | Video | Unsupported

  datatype Status = Pending | Running | Success | Failed

  datatype Item = Item(media: Media, status: Status)

  datatype JobStatus = JobPending | JobRunning | Completed | JobFailed | PartialFailed

  datatype Row = Row(status: JobStatus, success: nat, failed: nat)

  datatype Counts = Counts(success: nat, failed: nat, running: nat)

  predicate Terminal(status: Status) { status == Success || status == Failed }

  predicate Ended(status: JobStatus) { status.Completed? || status.JobFailed? || status.PartialFailed? }

  // --- Sums over sequences ---

  function Sum<T>(xs: seq<T>, f: T -> nat): nat {
    if xs == [] then 0 else f(xs[0]) + Sum(xs[1..], f)
  }

  lemma {:induction false} SumUpdate<T>(xs: seq<T>, i: nat, x: T, f: T -> nat)
    requires i < |xs|
    ensures Sum(xs[i := x], f) + f(xs[i]) == Sum(xs, f) + f(x)
    ensures f(xs[i]) <= Sum(xs, f)
  {
    if i == 0 {
      assert xs[0 := x][1..] == xs[1..];
    } else {
      assert xs[i := x][1..] == xs[1..][i - 1 := x];
      SumUpdate(xs[1..], i - 1, x, f);
    }
  }

  lemma {:induction false} SumPointwise<T, U>(xs: seq<T>, ys: seq<U>, f: T -> nat, g: U -> nat)
    requires |xs| == |ys| && forall i | 0 <= i < |xs| :: f(xs[i]) <= g(ys[i])
    ensures Sum(xs, f) <= Sum(ys, g)
  {
    if xs != [] {
      forall i | 0 <= i < |xs| - 1 ensures f(xs[1..][i]) <= g(ys[1..][i]) {
        assert f(xs[i + 1]) <= g(ys[i + 1]);
      }
      assert f(xs[0]) <= g(ys[0]);
      SumPointwise(xs[1..], ys[1..], f, g);
    }
  }

  lemma {:induction false} SumWitness<T>(xs: seq<T>, f: T -> nat) returns (i: nat)
    requires Sum(xs, f) > 0
    ensures i < |xs| && f(xs[i]) > 0
  {
    if f(xs[0]) > 0 {
      i := 0;
    } else {
      i := SumWitness(xs[1..], f);
      i := i + 1;
    }
  }

  lemma SumOfTwo<T>(a: T, b: T, f: T -> nat)
    ensures Sum([a, b], f) == f(a) + f(b)
  {
    assert [a, b][1..] == [b] && [b][1..] == [];
    assert Sum([b], f) == f(b);
  }

  // --- Counting and the job row ---

  function OneIf(b: bool): nat { if b then 1 else 0 }

  function IsSuccess(item: Item): nat { OneIf(item.status == Success) }
  function IsFailed(item: Item): nat { OneIf(item.status == Failed) }
  function IsRunning(item: Item): nat { OneIf(item.status == Running) }

  function Tally(items: seq<Item>): Counts {
    Counts(Sum(items, IsSuccess), Sum(items, IsFailed), Sum(items, IsRunning))
  }

  function StatusOf(c: Counts, total: nat): JobStatus {
    if c.success + c.failed == total && c.failed == 0 then Completed
    else if c.success + c.failed == total && c.success == 0 && c.failed > 0 then JobFailed
    else if c.success + c.failed == total && c.failed > 0 then PartialFailed
    else if c.running > 0 || c.success > 0 || c.failed > 0 then JobRunning
    else JobPending
  }

  function RowOf(c: Counts, total: nat): Row {
    Row(StatusOf(c, total), c.success, c.failed)
  }

  predicate AllTerminal(items: seq<Item>) {
    forall i | 0 <= i < |items| :: Terminal(items[i].status)
  }

  /** Terminal items are all of them exactly when the two counts add up to the total. */
  lemma {:induction false} TerminalSum(items: seq<Item>)
    ensures Sum(items, IsSuccess) + Sum(items, IsFailed) <= |items|
    ensures Sum(items, IsSuccess) + Sum(items, IsFailed) == |items| <==> AllTerminal(items)
  {
    if items != [] {
      TerminalSum(items[1..]);
      assert AllTerminal(items) <==> Terminal(items[0].status) && AllTerminal(items[1..]) by {
        assert items == [items[0]] + items[1..];
        if AllTerminal(items) {
          forall i | 0 <= i < |items[1..]| ensures Terminal(items[1..][i].status) { assert Terminal(items[i + 1].status); }
        }
      }
    }
  }

  lemma {:induction false} ZeroSum<T>(items: seq<T>, f: T -> nat)
    ensures Sum(items, f) == 0 <==> forall i | 0 <= i < |items| :: f(items[i]) == 0
  {
    if items != [] {
      ZeroSum(items[1..], f);
      assert items == [items[0]] + items[1..];
    }
  }

  /** What the refreshed status means for the items. */
  lemma StatusMeans(items: seq<Item>)
    ensures var status := RowOf(Tally(items), |items|).status;
      && (Ended(status) <==> AllTerminal(items))
      && (status == Completed <==> forall i | 0 <= i < |items| :: items[i].status == Success)
      && (status == JobFailed <==> items != [] && forall i | 0 <= i < |items| :: items[i].status == Failed)
      && (status == JobPending <==> items != [] && forall i | 0 <= i < |items| :: items[i].status == Pending)
  {
    TerminalSum(items);
    ZeroSum(items, IsSuccess);
    ZeroSum(items, IsFailed);
    ZeroSum(items, IsRunning);
    if forall i | 0 <= i < |items| :: IsSuccess(items[i]) == 0 && IsFailed(items[i]) == 0 && IsRunning(items[i]) == 0 {
      assert forall i | 0 <= i < |items| :: items[i].status == Pending;
    }
    assert forall i | 0 <= i < |items| :: (IsSuccess(items[i]) == 0) == (items[i].status != Success);
    assert forall i | 0 <= i < |items| :: (IsFailed(items[i]) == 0) == (items[i].status != Failed);
    assert forall i | 0 <= i < |items| :: (IsRunning(items[i]) == 0) == (items[i].status != Running);
  }

  function HowMany(items: seq<Item>, status: Status): nat {
    if items == [] then 0 else (if items[0].status == status then 1 else 0) + HowMany(items[1..], status)
  }

  lemma {:induction false} TallyMeans(items: seq<Item>)
    ensures Tally(items) == Counts(HowMany(items, Success), HowMany(items, Failed), HowMany(items, Running))
  {
    if items != [] { TallyMeans(items[1..]); }
  }

  /** The row shows how many items succeeded and how many failed. */
  lemma RowShowsCounts(items: seq<Item>)
    ensures var row := RowOf(Tally(items), |items|);
      row.success == HowMany(items, Success) && row.failed == HowMany(items, Failed)
  {
    TallyMeans(items);
  }

  // --- Before the workers start ---

  function FailWhere(items: seq<Item>, hit: Item -> bool): seq<Item> {
    seq(|items|, i requires 0 <= i < |items| => if hit(items[i]) then items[i].(status := Failed) else items[i])
  }

  predicate UnsupportedPending(item: Item) { item.status == Pending && item.media == Unsupported }
  predicate Unfinished(item: Item) { item.status == Pending || item.status == Running }
  predicate UnfinishedVideo(item: Item) { Unfinished(item) && item.media == Video }

  predicate HasPending(items: seq<Item>) {
    exists i :: 0 <= i < |items| && items[i].status == Pending
  }

  // The items once unsupported media, a broken configuration or a missing video prompt are written off.
  function Prepared(items: seq<Item>, configOk: bool, promptOk: bool): seq<Item> {
    var supported := FailWhere(items, UnsupportedPending);
    if !configOk then FailWhere(supported, Unfinished)
    else if !promptOk then FailWhere(supported, UnfinishedVideo)
    else supported
  }

  // A waiting item of unsupported media; without a configuration all that are not finished, and without
  // a prompt the videos among them.
  predicate WrittenOff(item: Item, configOk: bool, promptOk: bool) {
    || (item.status == Pending && item.media == Unsupported)
    || ((item.status == Pending || item.status == Running) && (!configOk || (!promptOk && item.media == Video)))
  }

  /** Exactly these items are failed before the workers start; the others stay as they are. */
  lemma PreparedMeans(items: seq<Item>, configOk: bool, promptOk: bool, i: nat)
    requires i < |items|
    ensures |Prepared(items, configOk, promptOk)| == |items|
    ensures Prepared(items, configOk, promptOk)[i] ==
      Item(items[i].media, if WrittenOff(items[i], configOk, promptOk) then Failed else items[i].status)
  {
    var supported := FailWhere(items, UnsupportedPending);
    assert supported[i] == if UnsupportedPending(items[i]) then items[i].(status := Failed) else items[i];
    assert FailWhere(supported, Unfinished)[i] == if Unfinished(supported[i]) then supported[i].(status := Failed) else supported[i];
    assert FailWhere(supported, UnfinishedVideo)[i] == if UnfinishedVideo(supported[i]) then supported[i].(status := Failed) else supported[i];
    assert items[i].media == Unsupported || supported[i] == items[i];
  }

  class Store {
    var items: seq<Item>
    var job: Row

    constructor (rows: seq<Item>)
      ensures items == rows && job == Row(JobPending, 0, 0)
    {
      items, job := rows, Row(JobPending, 0, 0);
    }

    // The counting loop and the row write of one refresh.
    method Refresh()
      modifies this`job
      ensures job == RowOf(Tally(items), |items|)
    {
      var pending, running, success, failed := 0, 0, 0, 0;
      for i := 0 to |items|
        invariant success + Sum(items[i..], IsSuccess) == Sum(items, IsSuccess)
        invariant failed + Sum(items[i..], IsFailed) == Sum(items, IsFailed)
        invariant running + Sum(items[i..], IsRunning) == Sum(items, IsRunning)
      {
        assert items[i..][1..] == items[i + 1..];
        match items[i].status {
          case Success => success := success + 1;
          case Failed => failed := failed + 1;
          case Running => running := running + 1;
          case Pending => pending := pending + 1;
        }
      }
      var status := JobPending;
      if success + failed == |items| && failed == 0 {
        status := Completed;
      } else if success + failed == |items| && success == 0 && failed > 0 {
        status := JobFailed;
      } else if success + failed == |items| && failed > 0 {
        status := PartialFailed;
      } else if running > 0 || success > 0 || failed > 0 {
        status := JobRunning;
      }
      job := Row(status, success, failed);
    }

    // One UPDATE with a WHERE clause.
    method Fail(hit: Item -> bool)
      modifies this`items
      ensures items == FailWhere(old(items), hit)
    {
      var n := |items|;
      for i := 0 to n
        invariant |items| == n
        invariant forall j | 0 <= j < n :: items[j] == if j < i && hit(old(items)[j]) then old(items)[j].(status := Failed) else old(items)[j]
      {
        if hit(items[i]) { items := items[i := items[i].(status := Failed)]; }
      }
    }

    // Everything the executor does before it starts a worker; `go` tells whether it starts any.
    method Prepare(configOk: bool, promptOk: bool) returns (go: bool)
      modifies this
      ensures go == HasPending(items)
      ensures HasPending(FailWhere(old(items), UnsupportedPending)) ==> items == Prepared(old(items), configOk, promptOk)
      ensures !HasPending(FailWhere(old(items), UnsupportedPending)) ==> items == FailWhere(old(items), UnsupportedPending)
      ensures job == RowOf(Tally(items), |items|).(status := if go then JobRunning else RowOf(Tally(items), |items|).status)
    {
      Fail(UnsupportedPending);
      Refresh();
      go := AnyPending();
      if !go { return; }
      if !configOk {
        ghost var before := items;
        Fail(Unfinished);
        assert forall i | 0 <= i < |items| :: items[i].status != Pending by {
          assert forall i | 0 <= i < |items| :: items[i] == if Unfinished(before[i]) then before[i].(status := Failed) else before[i];
        }
        Refresh();
        return false;
      }
      if !promptOk {
        Fail(UnfinishedVideo);
        Refresh();
      }
      go := AnyPending();
      if !go {
        Refresh();
        return;
      }
      job := job.(status := JobRunning);
    }

    method AnyPending() returns (any: bool)
      ensures any == HasPending(items)
    {
      any := false;
      for i := 0 to |items|
        invariant any == exists j :: 0 <= j < i && items[j].status == Pending
      {
        if items[i].status == Pending { any := true; }
      }
    }
  }
}
