/**
 * Streaming aggregation of trades into bars, proved equal to batch aggregation of
 * the maximal runs of trades that share a bucket.
 */
module BarBuilding {
  import opened Options
  import opened Floats
  import opened Market

  /** A trade; `time` is in nanoseconds since the epoch and may be negative. */
  datatype Trade = Trade(time: int, price: real, quantity: real)

  datatype Update = Update(phase: Phase, bar: Bar)

  datatype DataError = InvalidPrice | InvalidQuantity

  datatype Result = Accepted(updates: seq<Update>) | Rejected(error: DataError)

  const NANOS: int := 1_000_000_000

  function Seconds(tf: Timeframe): int {
    match tf
    case M1 => 60
    case M5 => 300
    case M15 => 900
    case M30 => 1800
    case H1 => 3600
    case H4 => 14400
    case D1 => 86400
  }

  function Decimal(digits: string): int {
    if digits == "" then 0 else Decimal(digits[..|digits| - 1]) * 10 + (digits[|digits| - 1] as int - '0' as int)
  }

  function UnitSeconds(unit: char): int {
    if unit == 'm' then 60 else if unit == 'h' then 60 * 60 else if unit == 'd' then 24 * 60 * 60 else 0
  }

  /** A timeframe lasts as long as its name says: a number of minutes, hours or days. */
  lemma NameTellsLength(tf: Timeframe)
    ensures var name := tf.AsStr();
            |name| > 1 && Seconds(tf) == Decimal(name[..|name| - 1]) * UnitSeconds(name[|name| - 1])
  {
    var name := tf.AsStr();
    var digits := name[..|name| - 1];
    match tf
    case M1 => assert digits == "1" && Decimal("1") == 1;
    case M5 => assert digits == "5" && Decimal("5") == 5;
    case M15 => assert digits == "15" && digits[..1] == "1" && Decimal("1") == 1 && Decimal("15") == 15;
    case M30 => assert digits == "30" && digits[..1] == "3" && Decimal("3") == 3 && Decimal("30") == 30;
    case H1 => assert digits == "1" && Decimal("1") == 1;
    case H4 => assert digits == "4" && Decimal("4") == 4;
    case D1 => assert digits == "1" && Decimal("1") == 1;
  }

  /** Start of the bucket that holds `time`, also before the epoch. */
  function Bucket(time: int, tf: Timeframe): int {
    var unixSeconds := time / NANOS;
    (unixSeconds - unixSeconds % Seconds(tf)) * NANOS
  }

  /** The `k`-th boundary of the timeframe, counted from the epoch. */
  function Boundary(k: int, tf: Timeframe): int { k * Seconds(tf) * NANOS }

  ghost predicate OnBoundary(time: int, tf: Timeframe) { exists k :: time == Boundary(k, tf) }

  /** A bucket starts on a boundary of the timeframe, and the trade lies in its bucket. */
  lemma BucketHoldsTime(time: int, tf: Timeframe)
    ensures Bucket(time, tf) == Boundary(time / NANOS / Seconds(tf), tf)
    ensures Bucket(time, tf) <= time < Bucket(time, tf) + Seconds(tf) * NANOS
  {
    var s, w := time / NANOS, Seconds(tf);
    assert s == s / w * w + s % w;
    assert 0 <= s % w < w;
  }

  lemma BucketOnBoundary(time: int, tf: Timeframe)
    ensures OnBoundary(Bucket(time, tf), tf)
  {
    BucketHoldsTime(time, tf);
  }

  lemma BucketIsMonotone(a: int, b: int, tf: Timeframe)
    requires a <= b
    ensures Bucket(a, tf) <= Bucket(b, tf)
  {
    var x, y := a / NANOS, b / NANOS;
    match tf {
      case M1 => assert x / 60 <= y / 60;
      case M5 => assert x / 300 <= y / 300;
      case M15 => assert x / 900 <= y / 900;
      case M30 => assert x / 1800 <= y / 1800;
      case H1 => assert x / 3600 <= y / 3600;
      case H4 => assert x / 14400 <= y / 14400;
      case D1 => assert x / 86400 <= y / 86400;
    }
  }

  // ----------------------------------------------------------- streaming

  datatype Builder = Builder(start: Option<int>, bar: Option<Bar>)

  predicate ValidTrade(t: Trade) { t.price > 0.0 && t.quantity >= 0.0 }

  function NewBar(start: int, t: Trade): Bar {
    Bar(start, t.price, t.price, t.price, t.price, t.quantity)
  }

  function WithTrade(bar: Bar, t: Trade): Bar {
    bar.(high := RMax(bar.high, t.price), low := RMin(bar.low, t.price), close := t.price,
         volume := bar.volume + t.quantity)
  }

  function Pushed(b: Builder, t: Trade, tf: Timeframe): (Builder, Result) {
    if t.price <= 0.0 then (b, Rejected(InvalidPrice))
    else if t.quantity < 0.0 then (b, Rejected(InvalidQuantity))
    else
      var start := Bucket(t.time, tf);
      if b.start == Some(start) then
        var bar := if b.bar.Some? then WithTrade(b.bar.value, t) else NewBar(start, t);
        (b.(bar := Some(bar)), Accepted([Update(Preview, bar)]))
      else
        var bar := NewBar(start, t);
        var closed := if b.start.Some? && b.bar.Some? then [Update(Confirmed, b.bar.value)] else [];
        (Builder(Some(start), Some(bar)), Accepted(closed + [Update(Preview, bar)]))
  }

  function Flushed(b: Builder): (Builder, Option<Update>) {
    if b.bar.None? then (b, None) else (Builder(None, None), Some(Update(Confirmed, b.bar.value)))
  }

  class BarBuilder {
    const timeframe: Timeframe
    var start: Option<int>
    var bar: Option<Bar>

    ghost function View(): Builder
      reads this
    {
      Builder(start, bar)
    }

    constructor (tf: Timeframe)
      ensures View() == Builder(None, None) && timeframe == tf
    {
      timeframe, start, bar := tf, None, None;
    }

    method PushTrade(t: Trade) returns (r: Result)
      modifies this
      ensures (View(), r) == Pushed(old(View()), t, timeframe)
      ensures !ValidTrade(t) ==> View() == old(View()) && r.Rejected?
    {
      if t.price <= 0.0 {
        return Rejected(InvalidPrice);
      }
      if t.quantity < 0.0 {
        return Rejected(InvalidQuantity);
      }
      var bucket := Bucket(t.time, timeframe);
      if start == Some(bucket) {
        bar := Some(if bar.Some? then WithTrade(bar.value, t) else NewBar(bucket, t));
        return Accepted([Update(Preview, bar.value)]);
      }
      var updates: seq<Update> := [];
      if start.Some? && bar.Some? {
        updates := [Update(Confirmed, bar.value)];
      }
      start, bar := Some(bucket), Some(NewBar(bucket, t));
      r := Accepted(updates + [Update(Preview, bar.value)]);
    }

    method FlushConfirmed() returns (u: Option<Update>)
      modifies this
      ensures (View(), u) == Flushed(old(View()))
    {
      if bar.None? {
        return None;
      }
      u := Some(Update(Confirmed, bar.value));
      start, bar := None, None;
    }
  }

  /** A trade is refused for its price, then for its quantity, and then nothing changes. */
  lemma RefusalOnInputs(b: Builder, t: Trade, tf: Timeframe)
    ensures Pushed(b, t, tf).1 == Rejected(InvalidPrice) <==> t.price <= 0.0
    ensures Pushed(b, t, tf).1 == Rejected(InvalidQuantity) <==> t.price > 0.0 && t.quantity < 0.0
    ensures Pushed(b, t, tf).1.Rejected? ==> Pushed(b, t, tf).0 == b
  {
  }

  /** An accepted trade is answered with a preview of the bar it is now part of, after the confirmation of
      the bar it closes, if it closes one; a flush confirms the bar under way. */
  lemma AnswersShowTheBar(b: Builder, t: Trade, tf: Timeframe)
    ensures var (b', r) := Pushed(b, t, tf);
            r.Accepted? ==>
              && b'.start == Some(Bucket(t.time, tf)) && b'.bar.Some? && b'.bar.value.close == t.price
              && r.updates ==
                 (if b.start.Some? && b.start != b'.start && b.bar.Some? then [Update(Confirmed, b.bar.value)] else [])
                 + [Update(Preview, b'.bar.value)]
    ensures Flushed(b).1 == if b.bar.Some? then Some(Update(Confirmed, b.bar.value)) else None
    ensures b.bar.Some? ==> Flushed(b).0 == Builder(None, None)
  {
  }

  datatype Op = Push(trade: Trade) | Flush

  function ConfirmedBars(updates: seq<Update>): seq<Bar>
    decreases |updates|
  {
    if updates == [] then []
    else (if updates[0].phase.Confirmed? then [updates[0].bar] else []) + ConfirmedBars(updates[1..])
  }

  function StepOp(b: Builder, op: Op, tf: Timeframe): (Builder, seq<Bar>) {
    match op
    case Push(t) =>
      var (b', r) := Pushed(b, t, tf);
      (b', if r.Accepted? then ConfirmedBars(r.updates) else [])
    case Flush =>
      var (b', u) := Flushed(b);
      (b', if u.Some? then [u.value.bar] else [])
  }

  /** Every bar of a run: those confirmed along the way, then the current one. */
  function Streamed(b: Builder, ops: seq<Op>, tf: Timeframe): seq<Bar>
    decreases |ops|
  {
    if ops == [] then (if b.bar.Some? then [b.bar.value] else [])
    else
      var (b', closed) := StepOp(b, ops[0], tf);
      closed + Streamed(b', ops[1..], tf)
  }

  // --------------------------------------------------------------- batch

  function TradesOf(ops: seq<Op>): seq<Trade>
    decreases |ops|
  {
    if ops == [] then []
    else (if ops[0].Push? && ValidTrade(ops[0].trade) then [ops[0].trade] else []) + TradesOf(ops[1..])
  }

  /** How many operations in front neither flush nor leave the bucket. */
  function RunLength(ops: seq<Op>, bucket: int, tf: Timeframe): (n: nat)
    ensures n <= |ops|
    decreases |ops|
  {
    if ops == [] || ops[0].Flush? then 0
    else if ValidTrade(ops[0].trade) && Bucket(ops[0].trade.time, tf) != bucket then 0
    else 1 + RunLength(ops[1..], bucket, tf)
  }

  /** The maximal runs of valid trades that share a bucket. */
  function Runs(ops: seq<Op>, tf: Timeframe): seq<seq<Trade>>
    decreases |ops|
  {
    if ops == [] then []
    else if ops[0].Flush? || !ValidTrade(ops[0].trade) then Runs(ops[1..], tf)
    else
      var n := 1 + RunLength(ops[1..], Bucket(ops[0].trade.time, tf), tf);
      [TradesOf(ops[..n])] + Runs(ops[n..], tf)
  }

  function Highest(ts: seq<Trade>): real
    requires ts != []
  {
    if |ts| == 1 then ts[0].price else RMax(Highest(ts[..|ts| - 1]), ts[|ts| - 1].price)
  }

  function Lowest(ts: seq<Trade>): real
    requires ts != []
  {
    if |ts| == 1 then ts[0].price else RMin(Lowest(ts[..|ts| - 1]), ts[|ts| - 1].price)
  }

  function Volume(ts: seq<Trade>): real {
    if ts == [] then 0.0 else Volume(ts[..|ts| - 1]) + ts[|ts| - 1].quantity
  }

  function Aggregate(ts: seq<Trade>, tf: Timeframe): Bar
    requires ts != []
  {
    Bar(Bucket(ts[0].time, tf), ts[0].price, Highest(ts), Lowest(ts), ts[|ts| - 1].price, Volume(ts))
  }

  /** High and low of an aggregate are attained and bound every price. */
  lemma {:induction false} ExtremesAreExact(ts: seq<Trade>)
    requires ts != []
    ensures forall i :: 0 <= i < |ts| ==> Lowest(ts) <= ts[i].price <= Highest(ts)
    ensures (exists i :: 0 <= i < |ts| && ts[i].price == Highest(ts)) &&
            (exists i :: 0 <= i < |ts| && ts[i].price == Lowest(ts))
  {
    var n := |ts| - 1;
    if n > 0 {
      var front := ts[..n];
      ExtremesAreExact(front);
      assert forall i :: 0 <= i < n ==> front[i] == ts[i];
      var h :| 0 <= h < n && front[h].price == Highest(front);
      var l :| 0 <= l < n && front[l].price == Lowest(front);
      assert ts[if ts[n].price > Highest(front) then n else h].price == Highest(ts);
      assert ts[if ts[n].price < Lowest(front) then n else l].price == Lowest(ts);
    } else {
      assert ts[0].price == Highest(ts) == Lowest(ts);
    }
  }

  function Aggregates(groups: seq<seq<Trade>>, tf: Timeframe): seq<Bar>
    requires forall i :: 0 <= i < |groups| ==> groups[i] != []
  {
    seq(|groups|, i requires 0 <= i < |groups| => Aggregate(groups[i], tf))
  }

  lemma AggregateSnoc(ts: seq<Trade>, t: Trade, tf: Timeframe)
    requires ts != []
    ensures Aggregate(ts + [t], tf) == WithTrade(Aggregate(ts, tf), t)
  {
    assert (ts + [t])[..|ts|] == ts;
  }

  lemma AggregateOne(t: Trade, tf: Timeframe)
    ensures Aggregate([t], tf) == NewBar(Bucket(t.time, tf), t)
  {
    assert Volume([t]) == Volume([]) + t.quantity;
  }

  lemma {:induction false} RunsAreNonEmpty(ops: seq<Op>, tf: Timeframe)
    ensures forall i :: 0 <= i < |Runs(ops, tf)| ==> Runs(ops, tf)[i] != []
    decreases |ops|
  {
    if ops != [] {
      if ops[0].Flush? || !ValidTrade(ops[0].trade) {
        RunsAreNonEmpty(ops[1..], tf);
      } else {
        var n := 1 + RunLength(ops[1..], Bucket(ops[0].trade.time, tf), tf);
        RunsAreNonEmpty(ops[n..], tf);
        assert ops[..n][0] == ops[0];
      }
    }
  }

  ghost function BatchBars(ops: seq<Op>, tf: Timeframe): seq<Bar> {
    RunsAreNonEmpty(ops, tf);
    Aggregates(Runs(ops, tf), tf)
  }

  /** The builder is in the middle of the run `ts`. */
  predicate Building(b: Builder, ts: seq<Trade>, tf: Timeframe) {
    ts != [] && b == Builder(Some(Bucket(ts[0].time, tf)), Some(Aggregate(ts, tf)))
  }

  lemma BatchCons(ops: seq<Op>, tf: Timeframe)
    requires ops != [] && ops[0].Push? && ValidTrade(ops[0].trade)
    ensures var n := 1 + RunLength(ops[1..], Bucket(ops[0].trade.time, tf), tf);
            var run := [ops[0].trade] + TradesOf(ops[1..][..n - 1]);
            BatchBars(ops, tf) == [Aggregate(run, tf)] + BatchBars(ops[1..][n - 1..], tf)
  {
    hide Aggregate, Bucket;
    var n := 1 + RunLength(ops[1..], Bucket(ops[0].trade.time, tf), tf);
    assert ops[..n][1..] == ops[1..][..n - 1];
    assert ops[n..] == ops[1..][n - 1..];
    var run := [ops[0].trade] + TradesOf(ops[1..][..n - 1]);
    assert TradesOf(ops[..n]) == run;
    assert Runs(ops, tf) == [run] + Runs(ops[n..], tf);
  }

  lemma RunStep(ops: seq<Op>, bucket: int, tf: Timeframe)
    requires ops != [] && RunLength(ops, bucket, tf) > 0
    ensures ops[0].Push?
    ensures ValidTrade(ops[0].trade) ==> Bucket(ops[0].trade.time, tf) == bucket
    ensures var n := RunLength(ops, bucket, tf);
            && RunLength(ops[1..], bucket, tf) == n - 1
            && TradesOf(ops[..n]) ==
               (if ValidTrade(ops[0].trade) then [ops[0].trade] + TradesOf(ops[1..][..n - 1])
                else TradesOf(ops[1..][..n - 1]))
            && ops[n..] == ops[1..][n - 1..]
  {
    var n := RunLength(ops, bucket, tf);
    assert ops[..n][1..] == ops[1..][..n - 1];
  }

  lemma StepWithinRun(b: Builder, ts: seq<Trade>, t: Trade, tf: Timeframe)
    requires Building(b, ts, tf) && ValidTrade(t) && Bucket(t.time, tf) == Bucket(ts[0].time, tf)
    ensures var (b', closed) := StepOp(b, Push(t), tf);
            Building(b', ts + [t], tf) && closed == []
  {
    AggregateSnoc(ts, t, tf);
    hide Aggregate;
    var bar := WithTrade(b.bar.value, t);
    assert [Update(Preview, bar)][1..] == [];
    assert ConfirmedBars([Update(Preview, bar)]) == [];
  }

  lemma StepIntoRun(b: Builder, t: Trade, tf: Timeframe)
    requires ValidTrade(t) && b.start != Some(Bucket(t.time, tf)) && (b.start.Some? <==> b.bar.Some?)
    ensures var (b', closed) := StepOp(b, Push(t), tf);
            Building(b', [t], tf) && closed == if b.bar.Some? then [b.bar.value] else []
  {
    AggregateOne(t, tf);
    hide Aggregate;
    var preview := Update(Preview, NewBar(Bucket(t.time, tf), t));
    assert [preview][1..] == [] && ConfirmedBars([preview]) == [];
    var closed := if b.bar.Some? then [Update(Confirmed, b.bar.value)] else [];
    assert (closed + [preview])[|closed|..] == [preview];
  }

  lemma StepIgnored(b: Builder, t: Trade, tf: Timeframe)
    requires !ValidTrade(t)
    ensures StepOp(b, Push(t), tf) == (b, [])
  {
  }

  lemma StreamedCons(b: Builder, ops: seq<Op>, tf: Timeframe)
    requires ops != []
    ensures Streamed(b, ops, tf) == StepOp(b, ops[0], tf).1 + Streamed(StepOp(b, ops[0], tf).0, ops[1..], tf)
  {
  }

  lemma StreamedNil(b: Builder, ts: seq<Trade>, tf: Timeframe)
    requires Building(b, ts, tf)
    ensures Streamed(b, [], tf) == [Aggregate(ts, tf)] && BatchBars([], tf) == []
  {
  }

  /** From the middle of a run, streaming finishes the run and then does the rest. */
  lemma {:induction false} StreamFromRun(b: Builder, ts: seq<Trade>, ops: seq<Op>, tf: Timeframe)
    requires ts != [] && Building(b, ts, tf)
    ensures var n := RunLength(ops, Bucket(ts[0].time, tf), tf);
            Streamed(b, ops, tf) == [Aggregate(ts + TradesOf(ops[..n]), tf)] + BatchBars(ops[n..], tf)
    decreases |ops|
  {
    hide *;
    var bucket := Bucket(ts[0].time, tf);
    var n := RunLength(ops, bucket, tf);
    if n == 0 {
      NoTrades();
      assert ops[..0] == [] && ops[0..] == ops && ts + [] == ts;
      if ops == [] {
        StreamedNil(b, ts, tf);
      } else {
        StreamPastRun(b, ts, ops, tf);
      }
    } else {
      var rest := ops[1..];
      RunStep(ops, bucket, tf);
      var t := ops[0].trade;
      StreamedCons(b, ops, tf);
      if ValidTrade(t) {
        StepWithinRun(b, ts, t, tf);
        assert (ts + [t])[0] == ts[0];
        StreamFromRun(StepOp(b, ops[0], tf).0, ts + [t], rest, tf);
        assert ts + [t] + TradesOf(rest[..n - 1]) == ts + TradesOf(ops[..n]);
      } else {
        StepIgnored(b, t, tf);
        StreamFromRun(b, ts, rest, tf);
      }
    }
  }

  lemma NoTrades()
    ensures TradesOf([]) == []
  {
  }

  lemma BatchSkip(ops: seq<Op>, tf: Timeframe)
    requires ops != [] && (ops[0].Flush? || !ValidTrade(ops[0].trade))
    ensures BatchBars(ops, tf) == BatchBars(ops[1..], tf)
  {
  }

  /** An operation that ends the run confirms its bar and starts afresh. */
  lemma {:induction false} StreamPastRun(b: Builder, ts: seq<Trade>, ops: seq<Op>, tf: Timeframe)
    requires Building(b, ts, tf) && ops != [] && RunLength(ops, Bucket(ts[0].time, tf), tf) == 0
    ensures Streamed(b, ops, tf) == [Aggregate(ts, tf)] + BatchBars(ops, tf)
    decreases |ops|, 0
  {
    var rest := ops[1..];
    if ops[0].Flush? {
      StreamIsBatch(rest, tf);
      BatchSkip(ops, tf);
    } else {
      var t := ops[0].trade;
      StepIntoRun(b, t, tf);
      var (b', closed) := StepOp(b, ops[0], tf);
      assert closed == [Aggregate(ts, tf)];
      StreamFromRun(b', [t], rest, tf);
      BatchCons(ops, tf);
      hide BatchBars, Aggregate, StepOp;
      assert Streamed(b, ops, tf) == closed + Streamed(b', rest, tf);
    }
  }

  /** Streaming equals batching: the confirmed bars plus the current bar of any sequence of
      trades and flushes are the aggregates of its maximal same-bucket runs. */
  lemma {:induction false} StreamIsBatch(ops: seq<Op>, tf: Timeframe)
    ensures Streamed(Builder(None, None), ops, tf) == BatchBars(ops, tf)
    decreases |ops|
  {
    if ops != [] {
      var rest, empty := ops[1..], Builder(None, None);
      if ops[0].Push? && ValidTrade(ops[0].trade) {
        var t := ops[0].trade;
        StepIntoRun(empty, t, tf);
        var b' := StepOp(empty, ops[0], tf).0;
        StreamFromRun(b', [t], rest, tf);
        BatchCons(ops, tf);
        hide BatchBars, Aggregate, StepOp;
        assert Streamed(empty, ops, tf) == [] + Streamed(b', rest, tf);
      } else {
        assert StepOp(empty, ops[0], tf) == (empty, []);
        StreamIsBatch(rest, tf);
        BatchSkip(ops, tf);
      }
    }
  }

  // ------------------------------------------------- what the runs guarantee

  function Flatten(groups: seq<seq<Trade>>): seq<Trade> {
    if groups == [] then [] else groups[0] + Flatten(groups[1..])
  }

  lemma {:induction false} TradesConcat(a: seq<Op>, b: seq<Op>)
    ensures TradesOf(a + b) == TradesOf(a) + TradesOf(b)
    decreases |a|
  {
    hide ValidTrade;
    if a == [] {
      assert a + b == b;
    } else {
      TradesConcat(a[1..], b);
      assert (a + b)[1..] == a[1..] + b;
      var mine := if a[0].Push? && ValidTrade(a[0].trade) then [a[0].trade] else [];
      assert TradesOf(a) == mine + TradesOf(a[1..]);
      assert TradesOf(a + b) == mine + TradesOf(a[1..] + b);
    }
  }

  lemma {:induction false} PrefixSharesBucket(ops: seq<Op>, bucket: int, tf: Timeframe)
    ensures forall t :: t in TradesOf(ops[..RunLength(ops, bucket, tf)]) ==> Bucket(t.time, tf) == bucket
    decreases |ops|
  {
    if RunLength(ops, bucket, tf) > 0 {
      RunStep(ops, bucket, tf);
      PrefixSharesBucket(ops[1..], bucket, tf);
    }
  }

  /** The runs are a partition of the valid trades, in order, and each stays in one bucket. */
  lemma {:induction false} RunsPartitionTrades(ops: seq<Op>, tf: Timeframe)
    ensures Flatten(Runs(ops, tf)) == TradesOf(ops)
    ensures forall i, t :: 0 <= i < |Runs(ops, tf)| && t in Runs(ops, tf)[i] ==>
              Runs(ops, tf)[i] != [] && Bucket(t.time, tf) == Bucket(Runs(ops, tf)[i][0].time, tf)
    decreases |ops|
  {
    hide Bucket, ValidTrade;
    if ops != [] {
      if ops[0].Flush? || !ValidTrade(ops[0].trade) {
        RunsPartitionTrades(ops[1..], tf);
      } else {
        var bucket := Bucket(ops[0].trade.time, tf);
        var n := 1 + RunLength(ops[1..], bucket, tf);
        RunsPartitionTrades(ops[n..], tf);
        TradesConcat(ops[..n], ops[n..]);
        assert ops[..n] + ops[n..] == ops;
        assert ops[..n][1..] == ops[1..][..n - 1];
        PrefixSharesBucket(ops[1..], bucket, tf);
        assert TradesOf(ops[..n]) == [ops[0].trade] + TradesOf(ops[1..][..n - 1]);
      }
    }
  }

  function BarVolume(bars: seq<Bar>): real {
    if bars == [] then 0.0 else bars[0].volume + BarVolume(bars[1..])
  }

  lemma {:induction false} VolumeConcat(a: seq<Trade>, b: seq<Trade>)
    ensures Volume(a + b) == Volume(a) + Volume(b)
    decreases |b|
  {
    if b == [] {
      assert a + b == a;
    } else {
      VolumeConcat(a, b[..|b| - 1]);
      assert (a + b)[..|a + b| - 1] == a + b[..|b| - 1];
    }
  }

  lemma {:induction false} AggregatesKeepVolume(groups: seq<seq<Trade>>, tf: Timeframe)
    requires forall i :: 0 <= i < |groups| ==> groups[i] != []
    ensures BarVolume(Aggregates(groups, tf)) == Volume(Flatten(groups))
    decreases |groups|
  {
    if groups != [] {
      AggregatesKeepVolume(groups[1..], tf);
      assert Aggregates(groups, tf)[1..] == Aggregates(groups[1..], tf);
      VolumeConcat(groups[0], Flatten(groups[1..]));
    }
  }

  /** The quantities of all trades at a price, summed up. */
  function Traded(ops: seq<Op>): real {
    if ops == [] then 0.0
    else
      (if ops[0].Push? && ops[0].trade.price > 0.0 && ops[0].trade.quantity > 0.0 then ops[0].trade.quantity else 0.0)
      + Traded(ops[1..])
  }

  lemma {:induction false} TradedIsVolume(ops: seq<Op>)
    ensures Volume(TradesOf(ops)) == Traded(ops)
    decreases |ops|
  {
    if ops != [] {
      TradedIsVolume(ops[1..]);
      var mine := if ops[0].Push? && ValidTrade(ops[0].trade) then [ops[0].trade] else [];
      VolumeConcat(mine, TradesOf(ops[1..]));
      assert mine != [] ==> mine[..0] == [] && Volume(mine) == Volume([]) + mine[0].quantity;
    }
  }

  /** No volume is lost or invented. */
  lemma VolumeIsConserved(ops: seq<Op>, tf: Timeframe)
    ensures BarVolume(Streamed(Builder(None, None), ops, tf)) == Traded(ops)
  {
    TradedIsVolume(ops);
    StreamIsBatch(ops, tf);
    RunsAreNonEmpty(ops, tf);
    RunsPartitionTrades(ops, tf);
    AggregatesKeepVolume(Runs(ops, tf), tf);
  }

  /** `bar` sums up the trades `ts` of one bucket. */
  ghost predicate SumsUp(bar: Bar, ts: seq<Trade>, tf: Timeframe) {
    && ts != []
    && bar.open == ts[0].price && bar.close == ts[|ts| - 1].price
    && (forall i :: 0 <= i < |ts| ==> bar.low <= ts[i].price <= bar.high && bar.time <= ts[i].time < bar.time + Seconds(tf) * NANOS)
    && (exists i :: 0 <= i < |ts| && ts[i].price == bar.high)
    && (exists i :: 0 <= i < |ts| && ts[i].price == bar.low)
    && OnBoundary(bar.time, tf)
  }

  /** There is one bar for each run, and it sums up the trades of the run. */
  lemma BarsSumUpRuns(ops: seq<Op>, tf: Timeframe, i: nat)
    requires i < |Runs(ops, tf)|
    ensures var bars := Streamed(Builder(None, None), ops, tf);
            |bars| == |Runs(ops, tf)| && SumsUp(bars[i], Runs(ops, tf)[i], tf)
  {
    StreamIsBatch(ops, tf);
    RunsAreNonEmpty(ops, tf);
    RunsPartitionTrades(ops, tf);
    var ts := Runs(ops, tf)[i];
    ExtremesAreExact(ts);
    BucketOnBoundary(ts[0].time, tf);
    forall j | 0 <= j < |ts| ensures Bucket(ts[0].time, tf) <= ts[j].time < Bucket(ts[0].time, tf) + Seconds(tf) * NANOS {
      assert ts[j] in ts;
      BucketHoldsTime(ts[j].time, tf);
    }
    hide Bucket, OnBoundary, Highest, Lowest, Volume, Runs, Streamed, Seconds;
  }

  /** Trades arrive in time order and nothing is flushed. */
  predicate TimeOrdered(ops: seq<Op>) {
    && (forall i :: 0 <= i < |ops| ==> ops[i].Push?)
    && (forall i, j :: 0 <= i < j < |ops| ==> ops[i].trade.time <= ops[j].trade.time)
  }

  lemma {:induction false} FirstRunIsLater(ops: seq<Op>, tf: Timeframe, bucket: int)
    requires TimeOrdered(ops)
    requires forall i :: 0 <= i < |ops| ==> bucket <= Bucket(ops[i].trade.time, tf)
    requires RunLength(ops, bucket, tf) == 0
    ensures Runs(ops, tf) != [] ==>
              Runs(ops, tf)[0] != [] && bucket < Bucket(Runs(ops, tf)[0][0].time, tf)
  {
    if ops != [] {
      var n := 1 + RunLength(ops[1..], Bucket(ops[0].trade.time, tf), tf);
      assert ops[..n][0] == ops[0];
    }
  }

  lemma {:induction false} RunLengthStops(ops: seq<Op>, bucket: int, tf: Timeframe)
    ensures RunLength(ops[RunLength(ops, bucket, tf)..], bucket, tf) == 0
    decreases |ops|
  {
    if RunLength(ops, bucket, tf) > 0 {
      RunStep(ops, bucket, tf);
      RunLengthStops(ops[1..], bucket, tf);
    }
  }

  predicate Ascending(groups: seq<seq<Trade>>, tf: Timeframe) {
    && (forall i :: 0 <= i < |groups| ==> groups[i] != [])
    && (forall i, j :: 0 <= i < j < |groups| ==>
          Bucket(groups[i][0].time, tf) < Bucket(groups[j][0].time, tf))
  }

  lemma AscendingCons(ts: seq<Trade>, groups: seq<seq<Trade>>, tf: Timeframe)
    requires ts != [] && Ascending(groups, tf)
    requires groups != [] ==> Bucket(ts[0].time, tf) < Bucket(groups[0][0].time, tf)
    ensures Ascending([ts] + groups, tf)
  {
    hide Bucket;
    var all: seq<seq<Trade>> := [ts] + groups;
    forall i, j | 0 <= i < j < |all| ensures Bucket(all[i][0].time, tf) < Bucket(all[j][0].time, tf) {
      if i == 0 {
        assert all[j] == groups[j - 1];
        assert j > 1 ==> Bucket(groups[0][0].time, tf) < Bucket(groups[j - 1][0].time, tf);
      } else {
        assert all[i] == groups[i - 1] && all[j] == groups[j - 1];
      }
    }
  }

  lemma NoRunsAscend(tf: Timeframe)
    ensures Ascending([], tf)
  {
  }

  lemma {:induction false} OrderedRunsAscend(ops: seq<Op>, tf: Timeframe)
    requires TimeOrdered(ops)
    ensures Ascending(Runs(ops, tf), tf)
    decreases |ops|
  {
    hide Bucket, ValidTrade, Ascending;
    NoRunsAscend(tf);
    if ops != [] {
      if !ValidTrade(ops[0].trade) {
        OrderedRunsAscend(ops[1..], tf);
      } else {
        var bucket := Bucket(ops[0].trade.time, tf);
        var m := RunLength(ops[1..], bucket, tf);
        var rest := ops[1 + m..];
        assert rest == ops[1..][m..];
        OrderedRunsAscend(rest, tf);
        RunLengthStops(ops[1..], bucket, tf);
        forall i | 0 <= i < |rest| ensures bucket <= Bucket(rest[i].trade.time, tf) {
          BucketIsMonotone(ops[0].trade.time, rest[i].trade.time, tf);
        }
        FirstRunIsLater(rest, tf, bucket);
        var first := TradesOf(ops[..1 + m]);
        assert ops[..1 + m][0] == ops[0];
        assert first != [] && first[0] == ops[0].trade;
        AscendingCons(first, Runs(rest, tf), tf);
        assert Runs(ops, tf) == [first] + Runs(rest, tf);
      }
    }
  }

  /** For trades in time order and without flushes, bar times are strictly increasing whole
      multiples of the timeframe, before as well as after the epoch. */
  lemma OrderedTradesGiveAscendingBars(ops: seq<Op>, tf: Timeframe)
    requires TimeOrdered(ops)
    ensures var bars := Streamed(Builder(None, None), ops, tf);
            && (forall i, j :: 0 <= i < j < |bars| ==> bars[i].time < bars[j].time)
            && (forall i :: 0 <= i < |bars| ==> OnBoundary(bars[i].time, tf))
  {
    hide Bucket, OnBoundary, Streamed, Runs;
    StreamIsBatch(ops, tf);
    OrderedRunsAscend(ops, tf);
    AscendingBars(Runs(ops, tf), tf);
  }

  lemma AscendingBars(groups: seq<seq<Trade>>, tf: Timeframe)
    requires Ascending(groups, tf)
    ensures var bars := Aggregates(groups, tf);
            && (forall i, j :: 0 <= i < j < |bars| ==> bars[i].time < bars[j].time)
            && (forall i :: 0 <= i < |bars| ==> OnBoundary(bars[i].time, tf))
  {
    hide Bucket, OnBoundary;
    var bars := Aggregates(groups, tf);
    forall i | 0 <= i < |bars| ensures OnBoundary(bars[i].time, tf) {
      BucketOnBoundary(groups[i][0].time, tf);
    }
  }
}
