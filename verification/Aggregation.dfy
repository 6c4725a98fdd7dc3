// One-second bars of research_on_data/aggregate_1s.py: the log is read in
// chunks, each chunk is grouped by second, and the groups are merged.

module Aggregation {
  import opened Options

  // The side field after trimming and lower-casing.
  datatype SideField = Buys | Sells | Other

  // A line of the log; None is a missing number.
  datatype Row = Row(ts: Option<real>, price: Option<real>, volume: Option<real>, tick: Option<real>, side: SideField)

  predicate Positive(x: Option<real>) { x.Some? && x.value > 0.0 }

  predicate IsValid(r: Row) {
    Positive(r.ts) && Positive(r.price) && r.volume.Some? && r.volume.value >= 0.0
  }

  // A valid row with its second and its resolved side.
  datatype MarketTrade = MarketTrade(bucket: int, price: real, volume: real, buy: bool, sell: bool)

  type GoodTrade = t: MarketTrade | t.volume >= 0.0 && !(t.buy && t.sell) witness MarketTrade(0, 0.0, 0.0, false, false)

  // The side field decides; the tick direction only when it does not.
  function TradeOf(r: Row): (t: GoodTrade)
    requires IsValid(r)
    ensures t.bucket as real * 1000.0 <= r.ts.value < (t.bucket + 1) as real * 1000.0
    ensures t.price == r.price.value && t.volume == r.volume.value
    ensures !r.side.Other? ==> t.buy == r.side.Buys? && t.sell == r.side.Sells?
    ensures r.side.Other? ==> t.buy == (r.tick in {Some(1.0), Some(3.0)})
    ensures r.side.Other? ==> t.sell == (r.tick in {Some(2.0), Some(4.0)})
  {
    var buyTick := r.tick == Some(1.0) || r.tick == Some(3.0);
    var sellTick := r.tick == Some(2.0) || r.tick == Some(4.0);
    var bucket := (r.ts.value / 1000.0).Floor;
    match r.side
    case Buys => MarketTrade(bucket, r.price.value, r.volume.value, true, false)
    case Sells => MarketTrade(bucket, r.price.value, r.volume.value, false, true)
    case Other => MarketTrade(bucket, r.price.value, r.volume.value, buyTick, sellTick)
  }

  // The valid rows of a chunk.
  function Trades(rows: seq<Row>): (ts: seq<GoodTrade>)
    ensures |ts| <= |rows|
  {
    if rows == [] then []
    else
      var ts, last := Trades(rows[..|rows| - 1]), rows[|rows| - 1];
      if IsValid(last) then ts + [TradeOf(last)] else ts
  }

  function InBucket(ts: seq<GoodTrade>, b: int): (g: seq<GoodTrade>) {
    if ts == [] then []
    else
      var g, last := InBucket(ts[..|ts| - 1], b), ts[|ts| - 1];
      if last.bucket == b then g + [last] else g
  }

  function UnknownSides(ts: seq<GoodTrade>): nat {
    if ts == [] then 0
    else
      var last := ts[|ts| - 1];
      UnknownSides(ts[..|ts| - 1]) + if last.buy || last.sell then 0 else 1
  }

  // ---------------------------------------------------------------- columns

  function Sum(xs: seq<real>): real {
    if xs == [] then 0.0 else Sum(xs[..|xs| - 1]) + xs[|xs| - 1]
  }

  function Max(x: real, y: real): real { if x < y then y else x }

  function Min(x: real, y: real): real { if x < y then x else y }

  function MaxOf(xs: seq<real>): real
    requires xs != []
  {
    if |xs| == 1 then xs[0] else Max(MaxOf(xs[..|xs| - 1]), xs[|xs| - 1])
  }

  function MinOf(xs: seq<real>): real
    requires xs != []
  {
    if |xs| == 1 then xs[0] else Min(MinOf(xs[..|xs| - 1]), xs[|xs| - 1])
  }

  function Map<T, U>(f: T -> U, xs: seq<T>): (ys: seq<U>)
    ensures |ys| == |xs| && forall i :: 0 <= i < |xs| ==> ys[i] == f(xs[i])
  {
    seq(|xs|, i requires 0 <= i < |xs| => f(xs[i]))
  }

  const price := (t: GoodTrade) => t.price
  const volume := (t: GoodTrade) => t.volume
  const turnover := (t: GoodTrade) => t.price * t.volume
  const bought := (t: GoodTrade) => if t.buy then t.volume else 0.0
  const sold := (t: GoodTrade) => if t.sell then t.volume else 0.0
  const unsided := (t: GoodTrade) => if t.buy || t.sell then 0.0 else t.volume

  // The aggregates of a second.
  datatype Bar = Bar(
    open: real, high: real, low: real, close: real,
    buyVol: real, sellVol: real, vol: real, pv: real, cnt: nat)

  // One pass over the trades of a second.
  function BarOf(g: seq<GoodTrade>): Bar
    requires g != []
  {
    Bar(g[0].price, MaxOf(Map(price, g)), MinOf(Map(price, g)), g[|g| - 1].price, Sum(Map(bought, g)),
        Sum(Map(sold, g)), Sum(Map(volume, g)), Sum(Map(turnover, g)), |g|)
  }

  // The aggregates of a second within one chunk, with the row numbers of its
  // first and last trade.
  datatype Entry = Entry(bar: Bar, ordFirst: int, ordLast: int)

  // The row numbers of a second's trades when the chunk starts at offset.
  function Ords(ts: seq<GoodTrade>, b: int, offset: int): (os: seq<int>)
    ensures |os| == |InBucket(ts, b)|
    ensures forall i :: 0 <= i < |os| ==> offset <= os[i] < offset + |ts|
  {
    if ts == [] then []
    else
      var os := Ords(ts[..|ts| - 1], b, offset);
      if ts[|ts| - 1].bucket == b then os + [offset + |ts| - 1] else os
  }

  function Least(os: seq<int>): (m: int)
    requires os != []
    ensures m in os && forall i :: 0 <= i < |os| ==> m <= os[i]
  {
    if |os| == 1 then os[0]
    else
      var m, last := Least(os[..|os| - 1]), os[|os| - 1];
      if last < m then last else m
  }

  function Greatest(os: seq<int>): (m: int)
    requires os != []
    ensures m in os && forall i :: 0 <= i < |os| ==> os[i] <= m
  {
    if |os| == 1 then os[0]
    else
      var m, last := Greatest(os[..|os| - 1]), os[|os| - 1];
      if last > m then last else m
  }

  function EntryOf(ts: seq<GoodTrade>, b: int, offset: int): Entry
    requires InBucket(ts, b) != []
  {
    Entry(BarOf(InBucket(ts, b)), Least(Ords(ts, b, offset)), Greatest(Ords(ts, b, offset)))
  }

  type Part = map<int, Entry>

  function Buckets(ts: seq<GoodTrade>): set<int> { set t | t in ts :: t.bucket }

  lemma {:induction false} BucketIsTaken(ts: seq<GoodTrade>, b: int)
    ensures b in Buckets(ts) <==> InBucket(ts, b) != []
  {
    if ts != [] {
      var n := |ts| - 1;
      BucketIsTaken(ts[..n], b);
      assert ts == ts[..n] + [ts[n]];
      assert Buckets(ts) == Buckets(ts[..n]) + {ts[n].bucket};
    }
  }

  // aggregate_chunk
  function AggregateChunk(ts: seq<GoodTrade>, offset: int): Part {
    assert forall b :: b in Buckets(ts) ==> InBucket(ts, b) != [] by {
      forall b | b in Buckets(ts) ensures InBucket(ts, b) != [] { BucketIsTaken(ts, b); }
    }
    map b | b in Buckets(ts) :: EntryOf(ts, b, offset)
  }

  lemma {:induction false} PartIs(ts: seq<GoodTrade>, offset: int, b: int)
    ensures b in AggregateChunk(ts, offset) <==> InBucket(ts, b) != []
    ensures b in AggregateChunk(ts, offset) ==> AggregateChunk(ts, offset)[b] == EntryOf(ts, b, offset)
  {
    BucketIsTaken(ts, b);
  }

  // ------------------------------------------------------------------ merge

  // The entries that the parts hold for a second.
  function Entries(parts: seq<Part>, b: int): seq<Entry> {
    if parts == [] then []
    else
      var es, last := Entries(parts[..|parts| - 1], b), parts[|parts| - 1];
      if b in last then es + [last[b]] else es
  }

  // The entry that sorting by first row number puts first.
  function Earliest(es: seq<Entry>): (e: Entry)
    requires es != []
    ensures e in es && forall i :: 0 <= i < |es| ==> e.ordFirst <= es[i].ordFirst
  {
    if |es| == 1 then es[0]
    else
      var e, last := Earliest(es[..|es| - 1]), es[|es| - 1];
      if last.ordFirst < e.ordFirst then last else e
  }

  // The entry that sorting by last row number puts last.
  function Latest(es: seq<Entry>): (e: Entry)
    requires es != []
    ensures e in es && forall i :: 0 <= i < |es| ==> es[i].ordLast <= e.ordLast
  {
    if |es| == 1 then es[0]
    else
      var e, last := Latest(es[..|es| - 1]), es[|es| - 1];
      if last.ordLast > e.ordLast then last else e
  }

  function CountAll(es: seq<Entry>): nat {
    if es == [] then 0 else CountAll(es[..|es| - 1]) + es[|es| - 1].bar.cnt
  }

  const high := (e: Entry) => e.bar.high
  const low := (e: Entry) => e.bar.low
  const buyVol := (e: Entry) => e.bar.buyVol
  const sellVol := (e: Entry) => e.bar.sellVol
  const vol := (e: Entry) => e.bar.vol
  const pv := (e: Entry) => e.bar.pv

  function Merge(es: seq<Entry>): Bar
    requires es != []
  {
    Bar(Earliest(es).bar.open, MaxOf(Map(high, es)), MinOf(Map(low, es)), Latest(es).bar.close,
        Sum(Map(buyVol, es)), Sum(Map(sellVol, es)), Sum(Map(vol, es)), Sum(Map(pv, es)), CountAll(es))
  }

  function Vwap(bar: Bar): real { if bar.vol > 0.0 then bar.pv / bar.vol else 0.0 }

  function Seconds(parts: seq<Part>): set<int> { set p, b | p in parts && b in p.Keys :: b }

  lemma {:induction false} SecondsHaveEntries(parts: seq<Part>, b: int)
    ensures b in Seconds(parts) <==> Entries(parts, b) != []
  {
    if parts != [] {
      var n := |parts| - 1;
      SecondsHaveEntries(parts[..n], b);
      assert parts == parts[..n] + [parts[n]];
    }
  }

  // The merge of all parts: aggregates and volume-weighted price by second.
  function MergeParts(parts: seq<Part>): (total: map<int, (Bar, real)>)
    ensures forall b :: b in total <==> Entries(parts, b) != []
    ensures forall b :: b in total ==> total[b] == (Merge(Entries(parts, b)), Vwap(Merge(Entries(parts, b))))
  {
    assert forall b :: b in Seconds(parts) <==> Entries(parts, b) != [] by {
      forall b ensures b in Seconds(parts) <==> Entries(parts, b) != [] { SecondsHaveEntries(parts, b); }
    }
    map b | b in Seconds(parts) :: (Merge(Entries(parts, b)), Vwap(Merge(Entries(parts, b))))
  }

  // ------------------------------------------------------------- whole files

  function Flatten(chunks: seq<seq<Row>>): seq<Row> {
    if chunks == [] then [] else Flatten(chunks[..|chunks| - 1]) + chunks[|chunks| - 1]
  }

  // What a chunk adds; a chunk without valid rows adds no part.
  function PartFrom(ts: seq<GoodTrade>, offset: int): seq<Part> {
    if ts == [] then [] else [AggregateChunk(ts, offset)]
  }

  // The parts after some chunks; rows are numbered so that the last valid row
  // of a chunk has the number of the last row read.
  function PartsOf(chunks: seq<seq<Row>>): seq<Part> {
    if chunks == [] then []
    else PartsOf(chunks[..|chunks| - 1]) + PartFrom(Trades(chunks[|chunks| - 1]), OffsetOf(chunks))
  }

  // The number of the last chunk's first valid row.
  function OffsetOf(chunks: seq<seq<Row>>): int
    requires chunks != []
  {
    |Flatten(chunks)| - |Trades(chunks[|chunks| - 1])|
  }

  datatype Stats = Stats(rows: nat, skipped: nat, unknownSide: nat)

  function StatsOf(chunks: seq<seq<Row>>): Stats {
    var ts := Trades(Flatten(chunks));
    Stats(|Flatten(chunks)|, |Flatten(chunks)| - |ts|, UnknownSides(ts))
  }

  function StatsAfter(s: Stats, chunk: seq<Row>): Stats {
    var ts := Trades(chunk);
    Stats(s.rows + |chunk|, s.skipped + (|chunk| - |ts|), s.unknownSide + UnknownSides(ts))
  }

  // One pass over all trades, second by second.
  ghost predicate IsOnePass(total: map<int, (Bar, real)>, ts: seq<GoodTrade>) {
    forall b :: (b in total <==> InBucket(ts, b) != []) &&
                (b in total ==> total[b] == (BarOf(InBucket(ts, b)), Vwap(BarOf(InBucket(ts, b)))))
  }

  // ------------------------------------------------ the table, row by row

  // A row that is not skipped, and its second.
  predicate Usable(r: Row) {
    r.ts.Some? && r.ts.value > 0.0 && r.price.Some? && r.price.value > 0.0 && r.volume.Some? && r.volume.value >= 0.0
  }

  predicate CountsIn(r: Row, b: int) {
    Usable(r) && b as real * 1000.0 <= r.ts.value < (b + 1) as real * 1000.0
  }

  predicate IsBuy(r: Row) { r.side.Buys? || (r.side.Other? && (r.tick == Some(1.0) || r.tick == Some(3.0))) }

  predicate IsSell(r: Row) { r.side.Sells? || (r.side.Other? && (r.tick == Some(2.0) || r.tick == Some(4.0))) }

  predicate AnyRow(r: Row) { true }

  function Volume(r: Row): real { if r.volume.Some? then r.volume.value else 0.0 }

  function Turnover(r: Row): real { if r.price.Some? then r.price.value * Volume(r) else 0.0 }

  // A total over the rows of a second that qualify.
  function Total(rows: seq<Row>, b: int, qualifies: Row -> bool, value: Row -> real): real {
    if rows == [] then 0.0
    else
      var last := rows[|rows| - 1];
      Total(rows[..|rows| - 1], b, qualifies, value) +
      if CountsIn(last, b) && qualifies(last) then value(last) else 0.0
  }

  function HowMany(rows: seq<Row>, qualifies: Row -> bool): nat {
    if rows == [] then 0
    else HowMany(rows[..|rows| - 1], qualifies) + if qualifies(rows[|rows| - 1]) then 1 else 0
  }

  // The price at row k, which is of the second.
  predicate PriceAt(rows: seq<Row>, b: int, k: int, price: real) {
    0 <= k < |rows| && CountsIn(rows[k], b) && rows[k].price == Some(price)
  }

  ghost predicate FirstPrice(rows: seq<Row>, b: int, price: real) {
    exists k :: PriceAt(rows, b, k, price) && forall i :: 0 <= i < k ==> !CountsIn(rows[i], b)
  }

  ghost predicate LastPrice(rows: seq<Row>, b: int, price: real) {
    exists k :: PriceAt(rows, b, k, price) && forall i :: k < i < |rows| ==> !CountsIn(rows[i], b)
  }

  ghost predicate TopPrice(rows: seq<Row>, b: int, price: real) {
    (exists k :: PriceAt(rows, b, k, price)) &&
    forall i :: 0 <= i < |rows| && CountsIn(rows[i], b) ==> rows[i].price.value <= price
  }

  ghost predicate BottomPrice(rows: seq<Row>, b: int, price: real) {
    (exists k :: PriceAt(rows, b, k, price)) &&
    forall i :: 0 <= i < |rows| && CountsIn(rows[i], b) ==> rows[i].price.value >= price
  }

  ghost predicate IsSecond(rows: seq<Row>, b: int, bar: Bar, vwap: real) {
    && FirstPrice(rows, b, bar.open) && LastPrice(rows, b, bar.close)
    && TopPrice(rows, b, bar.high) && BottomPrice(rows, b, bar.low)
    && bar.buyVol == Total(rows, b, IsBuy, Volume) && bar.sellVol == Total(rows, b, IsSell, Volume)
    && bar.vol == Total(rows, b, AnyRow, Volume) && bar.pv == Total(rows, b, AnyRow, Turnover)
    && bar.cnt == HowMany(rows, r => CountsIn(r, b))
    && (if bar.vol > 0.0 then vwap * bar.vol == bar.pv else vwap == 0.0)
  }

  // All rows, those skipped, and those used without a side.
  function CountedStats(rows: seq<Row>): Stats {
    Stats(|rows|, HowMany(rows, r => !Usable(r)), HowMany(rows, r => Usable(r) && !IsBuy(r) && !IsSell(r)))
  }

  // The table of a log: a line for every second that has a usable row.
  ghost predicate IsTable(total: map<int, (Bar, real)>, rows: seq<Row>) {
    forall b :: (b in total <==> exists k :: 0 <= k < |rows| && CountsIn(rows[k], b)) &&
                (b in total ==> IsSecond(rows, b, total[b].0, total[b].1))
  }

  // aggregate_file; None is the exit without a single valid trade.
  method AggregateFile(chunks: seq<seq<Row>>) returns (r: Option<map<int, (Bar, real)>>, stats: Stats)
    ensures stats == StatsOf(chunks) && (r.None? <==> Trades(Flatten(chunks)) == [])
    ensures r.Some? ==> IsOnePass(r.value, Trades(Flatten(chunks)))
    ensures r.Some? ==> IsTable(r.value, Flatten(chunks))
    ensures r.None? <==> forall k :: 0 <= k < |Flatten(chunks)| ==> !Usable(Flatten(chunks)[k])
    ensures stats == CountedStats(Flatten(chunks))
  {
    var parts: seq<Part> := [];
    stats := Stats(0, 0, 0);
    for i := 0 to |chunks|
      invariant parts == PartsOf(chunks[..i]) && stats == StatsOf(chunks[..i])
    {
      assert chunks[..i + 1] == chunks[..i] + [chunks[i]];
      var offset;
      parts, stats, offset := ReadChunk(parts, stats, chunks[i]);
      StatsSnoc(chunks[..i], chunks[i]);
      PartsSnoc(chunks[..i], chunks[i]);
      assert offset == OffsetOf(chunks[..i] + [chunks[i]]);
    }
    assert chunks[..|chunks|] == chunks;
    PartsAreTrades(chunks);
    MergedIsOnePass(chunks);
    OnePassIsTable(MergeParts(parts), Flatten(chunks));
    RowsAreCounted(Flatten(chunks));
    r := if parts == [] then None else Some(MergeParts(parts));
  }

  // The body of the loop over the chunks.
  method ReadChunk(parts: seq<Part>, stats: Stats, chunk: seq<Row>)
    returns (parts': seq<Part>, stats': Stats, offset: int)
    ensures parts' == parts + PartFrom(Trades(chunk), offset) && offset == stats'.rows - |Trades(chunk)|
    ensures stats' == StatsAfter(stats, chunk)
  {
    var valid := Trades(chunk);
    stats' := Stats(stats.rows + |chunk|, stats.skipped + (|chunk| - |valid|), stats.unknownSide + UnknownSides(valid));
    offset := stats'.rows - |valid|;
    parts' := AddPart(parts, valid, offset);
  }

  method AddPart(parts: seq<Part>, valid: seq<GoodTrade>, offset: int) returns (parts': seq<Part>)
    ensures parts' == parts + PartFrom(valid, offset)
  {
    parts' := parts;
    if valid != [] {
      parts' := parts' + [AggregateChunk(valid, offset)];
    }
  }

  // ------------------------------------------------------------------ lemmas

  lemma {:induction false} TradesConcat(xs: seq<Row>, ys: seq<Row>)
    ensures Trades(xs + ys) == Trades(xs) + Trades(ys)
  {
    if ys == [] {
      assert xs + ys == xs;
    } else {
      var n := |ys| - 1;
      assert (xs + ys)[..|xs + ys| - 1] == xs + ys[..n];
      TradesConcat(xs, ys[..n]);
    }
  }

  lemma {:induction false} InBucketConcat(xs: seq<GoodTrade>, ys: seq<GoodTrade>, b: int)
    ensures InBucket(xs + ys, b) == InBucket(xs, b) + InBucket(ys, b)
  {
    if ys == [] {
      assert xs + ys == xs;
    } else {
      var n := |ys| - 1;
      assert (xs + ys)[..|xs + ys| - 1] == xs + ys[..n];
      InBucketConcat(xs, ys[..n], b);
    }
  }

  lemma {:induction false} UnknownConcat(xs: seq<GoodTrade>, ys: seq<GoodTrade>)
    ensures UnknownSides(xs + ys) == UnknownSides(xs) + UnknownSides(ys)
  {
    if ys == [] {
      assert xs + ys == xs;
    } else {
      var n := |ys| - 1;
      assert (xs + ys)[..|xs + ys| - 1] == xs + ys[..n];
      UnknownConcat(xs, ys[..n]);
    }
  }

  lemma {:induction false} SumConcat(xs: seq<real>, ys: seq<real>)
    ensures Sum(xs + ys) == Sum(xs) + Sum(ys)
  {
    if ys == [] {
      assert xs + ys == xs;
    } else {
      var n := |ys| - 1;
      assert (xs + ys)[..|xs + ys| - 1] == xs + ys[..n];
      SumConcat(xs, ys[..n]);
    }
  }

  lemma {:induction false} ExtremesConcat(xs: seq<real>, ys: seq<real>)
    requires xs != [] && ys != []
    ensures MaxOf(xs + ys) == Max(MaxOf(xs), MaxOf(ys))
    ensures MinOf(xs + ys) == Min(MinOf(xs), MinOf(ys))
  {
    var n := |ys| - 1;
    assert (xs + ys)[..|xs + ys| - 1] == xs + ys[..n];
    if n == 0 {
      assert xs + ys[..n] == xs;
    } else {
      ExtremesConcat(xs, ys[..n]);
    }
  }

  lemma MapConcat<T, U>(f: T -> U, xs: seq<T>, ys: seq<T>)
    ensures Map(f, xs + ys) == Map(f, xs) + Map(f, ys)
  {
  }

  lemma SumMapConcat<T>(f: T -> real, xs: seq<T>, ys: seq<T>)
    ensures Sum(Map(f, xs + ys)) == Sum(Map(f, xs)) + Sum(Map(f, ys))
  {
    MapConcat(f, xs, ys);
    SumConcat(Map(f, xs), Map(f, ys));
  }

  lemma ExtremesMapConcat<T>(f: T -> real, xs: seq<T>, ys: seq<T>)
    requires xs != [] && ys != []
    ensures MaxOf(Map(f, xs + ys)) == Max(MaxOf(Map(f, xs)), MaxOf(Map(f, ys)))
    ensures MinOf(Map(f, xs + ys)) == Min(MinOf(Map(f, xs)), MinOf(Map(f, ys)))
  {
    MapConcat(f, xs, ys);
    ExtremesConcat(Map(f, xs), Map(f, ys));
  }

  // Two bars of the same second, the first one earlier.
  function Join(a: Bar, b: Bar): Bar {
    Bar(a.open, Max(a.high, b.high), Min(a.low, b.low), b.close, a.buyVol + b.buyVol, a.sellVol + b.sellVol,
        a.vol + b.vol, a.pv + b.pv, a.cnt + b.cnt)
  }

  lemma BarJoins(g: seq<GoodTrade>, h: seq<GoodTrade>)
    requires g != [] && h != []
    ensures BarOf(g + h) == Join(BarOf(g), BarOf(h))
  {
    ExtremesMapConcat(price, g, h);
    SumMapConcat(bought, g, h);
    SumMapConcat(sold, g, h);
    SumMapConcat(volume, g, h);
    SumMapConcat(turnover, g, h);
  }

  lemma MergeOne(e: Entry)
    ensures Merge([e]) == e.bar
  {
    assert Sum([]) == 0.0 && CountAll([]) == 0;
    assert Map(high, [e]) == [e.bar.high] && Map(low, [e]) == [e.bar.low];
    SumOne(buyVol, e);
    SumOne(sellVol, e);
    SumOne(vol, e);
    SumOne(pv, e);
    assert [e][..0] == [];
  }

  lemma SumOne<T>(f: T -> real, x: T)
    ensures Sum(Map(f, [x])) == f(x)
  {
    assert Map(f, [x]) == [f(x)];
    assert [f(x)][..0] == [];
  }

  lemma CountSnoc(es: seq<Entry>, e: Entry)
    ensures CountAll(es + [e]) == CountAll(es) + e.bar.cnt
  {
    assert (es + [e])[..|es|] == es;
  }

  lemma ExtremesSnoc<T>(f: T -> real, xs: seq<T>, x: T)
    requires xs != []
    ensures MaxOf(Map(f, xs + [x])) == Max(MaxOf(Map(f, xs)), f(x))
    ensures MinOf(Map(f, xs + [x])) == Min(MinOf(Map(f, xs)), f(x))
  {
    assert Map(f, [x]) == [f(x)];
    ExtremesMapConcat(f, xs, [x]);
  }

  lemma SumSnoc<T>(f: T -> real, xs: seq<T>, x: T)
    ensures Sum(Map(f, xs + [x])) == Sum(Map(f, xs)) + f(x)
  {
    SumOne(f, x);
    SumMapConcat(f, xs, [x]);
  }

  // Entries whose row numbers all lie below n.
  predicate Below(es: seq<Entry>, n: int) {
    forall i :: 0 <= i < |es| ==> es[i].ordFirst < n && es[i].ordLast < n
  }

  lemma EndsSnoc(es: seq<Entry>, e: Entry)
    requires es != [] && Below(es, e.ordFirst) && e.ordFirst <= e.ordLast
    ensures Earliest(es + [e]) == Earliest(es) && Latest(es + [e]) == e
  {
    assert (es + [e])[..|es|] == es;
  }

  // An entry with later rows joins the merge of the earlier ones.
  lemma MergeSnoc(es: seq<Entry>, e: Entry)
    requires es != [] && Below(es, e.ordFirst) && e.ordFirst <= e.ordLast
    ensures Merge(es + [e]) == Join(Merge(es), e.bar)
  {
    EndsSnoc(es, e);
    ExtremesSnoc(high, es, e);
    ExtremesSnoc(low, es, e);
    SumSnoc(buyVol, es, e);
    SumSnoc(sellVol, es, e);
    SumSnoc(vol, es, e);
    SumSnoc(pv, es, e);
    CountSnoc(es, e);
  }

  lemma EntryIsNumbered(ts: seq<GoodTrade>, b: int, offset: int)
    requires InBucket(ts, b) != []
    ensures var e := EntryOf(ts, b, offset);
            offset <= e.ordFirst <= e.ordLast < offset + |ts|
  {
    var os := Ords(ts, b, offset);
    assert os[0] in os;
  }

  lemma PartsSnoc(before: seq<seq<Row>>, chunk: seq<Row>)
    ensures PartsOf(before + [chunk]) == PartsOf(before) + PartFrom(Trades(chunk), OffsetOf(before + [chunk]))
  {
    assert (before + [chunk])[..|before|] == before;
  }

  lemma FlattenSnoc(before: seq<seq<Row>>, chunk: seq<Row>)
    ensures Flatten(before + [chunk]) == Flatten(before) + chunk
    ensures Trades(Flatten(before + [chunk])) == Trades(Flatten(before)) + Trades(chunk)
  {
    assert (before + [chunk])[..|before|] == before;
    TradesConcat(Flatten(before), chunk);
  }

  lemma StatsSnoc(before: seq<seq<Row>>, chunk: seq<Row>)
    ensures StatsOf(before + [chunk]) == StatsAfter(StatsOf(before), chunk)
    ensures StatsOf(before + [chunk]).rows == |Flatten(before + [chunk])|
  {
    FlattenSnoc(before, chunk);
    UnknownConcat(Trades(Flatten(before)), Trades(chunk));
  }

  lemma {:induction false} PartsAreTrades(chunks: seq<seq<Row>>)
    ensures PartsOf(chunks) == [] <==> Trades(Flatten(chunks)) == []
  {
    if chunks != [] {
      var n := |chunks| - 1;
      assert chunks == chunks[..n] + [chunks[n]];
      PartsAreTrades(chunks[..n]);
      FlattenSnoc(chunks[..n], chunks[n]);
      PartsSnoc(chunks[..n], chunks[n]);
    }
  }

  lemma EntriesSnoc(parts: seq<Part>, part: Part, b: int)
    ensures Entries(parts + [part], b) == Entries(parts, b) + if b in part then [part[b]] else []
  {
    assert (parts + [part])[..|parts|] == parts;
  }

  // What a chunk adds to the entries of a second.
  function EntryFrom(ts: seq<GoodTrade>, b: int, offset: int): seq<Entry> {
    if InBucket(ts, b) == [] then [] else [EntryOf(ts, b, offset)]
  }

  lemma EntriesGrow(parts: seq<Part>, ts: seq<GoodTrade>, offset: int, b: int)
    ensures Entries(parts + PartFrom(ts, offset), b) == Entries(parts, b) + EntryFrom(ts, b, offset)
  {
    if ts == [] {
      assert parts + PartFrom(ts, offset) == parts;
    } else {
      PartIs(ts, offset, b);
      EntriesSnoc(parts, AggregateChunk(ts, offset), b);
    }
  }

  // Entries of a second that summarize its trades, numbered below n.
  predicate Summarize(es: seq<Entry>, g: seq<GoodTrade>, n: int) {
    (es == [] <==> g == []) && (es != [] ==> Merge(es) == BarOf(g)) && Below(es, n)
  }

  lemma FirstSummary(es: seq<Entry>, g: seq<GoodTrade>, e: Entry, h: seq<GoodTrade>)
    requires es == [] && g == [] && h != [] && e.bar == BarOf(h)
    ensures Merge(es + [e]) == BarOf(g + h)
  {
    assert es + [e] == [e] && g + h == h;
    MergeOne(e);
  }

  lemma LaterSummary(es: seq<Entry>, g: seq<GoodTrade>, e: Entry, h: seq<GoodTrade>)
    requires es != [] && g != [] && h != [] && Merge(es) == BarOf(g) && e.bar == BarOf(h)
    requires Below(es, e.ordFirst) && e.ordFirst <= e.ordLast
    ensures Merge(es + [e]) == BarOf(g + h)
  {
    MergeSnoc(es, e);
    BarJoins(g, h);
  }

  lemma MergeGrows(es: seq<Entry>, g: seq<GoodTrade>, n: int, e: Entry, h: seq<GoodTrade>)
    requires Summarize(es, g, n) && h != [] && e.bar == BarOf(h) && n <= e.ordFirst <= e.ordLast
    ensures Merge(es + [e]) == BarOf(g + h)
  {
    if es == [] {
      FirstSummary(es, g, e, h);
    } else {
      LaterSummary(es, g, e, h);
    }
  }

  lemma SummaryGrows(es: seq<Entry>, g: seq<GoodTrade>, n: int, e: Entry, h: seq<GoodTrade>, m: int)
    requires Summarize(es, g, n) && h != [] && e.bar == BarOf(h) && n <= e.ordFirst <= e.ordLast < m
    ensures Summarize(es + [e], g + h, m)
  {
    var es', g' := es + [e], g + h;
    assert es' != [] && g' != [] && Below(es', m);
    MergeGrows(es, g, n, e, h);
    Summed(es', g', m);
  }

  lemma Summed(es: seq<Entry>, g: seq<GoodTrade>, n: int)
    requires es != [] && g != [] && Below(es, n) && Merge(es) == BarOf(g)
    ensures Summarize(es, g, n)
  {
  }

  lemma SummaryStep(es: seq<Entry>, g: seq<GoodTrade>, n: int, ts: seq<GoodTrade>, b: int, offset: int, rows: int)
    requires Summarize(es, g, n) && n <= offset && rows == offset + |ts|
    ensures Summarize(es + EntryFrom(ts, b, offset), g + InBucket(ts, b), rows)
  {
    var h := InBucket(ts, b);
    if h == [] {
      assert es + EntryFrom(ts, b, offset) == es && g + h == g;
    } else {
      EntryIsNumbered(ts, b, offset);
      SummaryGrows(es, g, n, EntryOf(ts, b, offset), h, rows);
    }
  }

  // The merged entries of a second are the one-pass bar of its trades.
  lemma {:induction false} MergeIsOnePass(chunks: seq<seq<Row>>, b: int)
    ensures Summarize(Entries(PartsOf(chunks), b), InBucket(Trades(Flatten(chunks)), b), |Flatten(chunks)|)
  {
    if chunks != [] {
      var before, chunk := chunks[..|chunks| - 1], chunks[|chunks| - 1];
      var ts, rows, done := Trades(chunk), |Flatten(chunks)|, Trades(Flatten(before));
      var offset := OffsetOf(chunks);
      assert chunks == before + [chunk];
      MergeIsOnePass(before, b);
      FlattenSnoc(before, chunk);
      PartsSnoc(before, chunk);
      EntriesGrow(PartsOf(before), ts, offset, b);
      InBucketConcat(done, ts, b);
      SummaryStep(Entries(PartsOf(before), b), InBucket(done, b), |Flatten(before)|, ts, b, offset, rows);
    }
  }

  // Merging the parts of any split of a log gives its one-pass bars.
  lemma MergedIsOnePass(chunks: seq<seq<Row>>)
    ensures IsOnePass(MergeParts(PartsOf(chunks)), Trades(Flatten(chunks)))
  {
    forall b
      ensures Summarize(Entries(PartsOf(chunks), b), InBucket(Trades(Flatten(chunks)), b), |Flatten(chunks)|)
    {
      MergeIsOnePass(chunks, b);
    }
  }

  // Two ways to split the same log give the same bars.
  lemma {:induction false} ChunkInvariance(chunks: seq<seq<Row>>, chunks': seq<seq<Row>>)
    requires Flatten(chunks) == Flatten(chunks')
    ensures MergeParts(PartsOf(chunks)) == MergeParts(PartsOf(chunks'))
  {
    MergedIsOnePass(chunks);
    MergedIsOnePass(chunks');
    OnePassIsUnique(MergeParts(PartsOf(chunks)), MergeParts(PartsOf(chunks')), Trades(Flatten(chunks)));
  }

  lemma OnePassIsUnique(total: map<int, (Bar, real)>, total': map<int, (Bar, real)>, ts: seq<GoodTrade>)
    requires IsOnePass(total, ts) && IsOnePass(total', ts)
    ensures total == total'
  {
    forall b
      ensures (b in total <==> b in total') && (b in total ==> total[b] == total'[b])
    {
      assert b in total <==> InBucket(ts, b) != [];
    }
  }

  // Buy and sell volume fall short of the volume by the volume of unknown side.
  lemma {:induction false} SidesAddUp(g: seq<GoodTrade>)
    ensures Sum(Map(bought, g)) + Sum(Map(sold, g)) + Sum(Map(unsided, g)) == Sum(Map(volume, g))
    ensures g != [] ==> BarOf(g).vol - (BarOf(g).buyVol + BarOf(g).sellVol) == Sum(Map(unsided, g))
  {
    if g != [] {
      var n := |g| - 1;
      assert g == g[..n] + [g[n]];
      SidesAddUp(g[..n]);
      SumSnoc(bought, g[..n], g[n]);
      SumSnoc(sold, g[..n], g[n]);
      SumSnoc(unsided, g[..n], g[n]);
      SumSnoc(volume, g[..n], g[n]);
    }
  }

  predicate Bounded(b: Bar) { b.vol >= 0.0 && b.low * b.vol <= b.pv <= b.high * b.vol }

  lemma ScaleUp(x: real, y: real, v: real)
    requires x <= y && v >= 0.0
    ensures x * v <= y * v
  {
  }

  lemma JoinIsBounded(a: Bar, b: Bar)
    requires Bounded(a) && Bounded(b)
    ensures Bounded(Join(a, b))
  {
    var low, high := Min(a.low, b.low), Max(a.high, b.high);
    ScaleUp(low, a.low, a.vol);
    ScaleUp(low, b.low, b.vol);
    ScaleUp(a.high, high, a.vol);
    ScaleUp(b.high, high, b.vol);
    assert low * (a.vol + b.vol) == low * a.vol + low * b.vol;
    assert high * (a.vol + b.vol) == high * a.vol + high * b.vol;
  }

  lemma OneIsBounded(t: GoodTrade)
    ensures Bounded(BarOf([t]))
  {
    SumOne(volume, t);
    SumOne(turnover, t);
    assert Map(price, [t]) == [t.price];
  }

  lemma {:induction false} TurnoverIsBounded(g: seq<GoodTrade>)
    requires g != []
    ensures Bounded(BarOf(g))
  {
    var n := |g| - 1;
    assert g == g[..n] + [g[n]];
    OneIsBounded(g[n]);
    if n > 0 {
      TurnoverIsBounded(g[..n]);
      BarJoins(g[..n], [g[n]]);
      JoinIsBounded(BarOf(g[..n]), BarOf([g[n]]));
    } else {
      assert g == [g[n]];
    }
  }

  lemma QuotientInRange(low: real, high: real, pv: real, vol: real)
    requires vol > 0.0 && low * vol <= pv <= high * vol
    ensures low <= pv / vol <= high
  {
    assert pv / vol * vol == pv;
  }

  // The volume-weighted price of a second with volume lies between its low
  // and its high; without volume it is zero.
  lemma VwapInRange(g: seq<GoodTrade>)
    requires g != []
    ensures var bar := BarOf(g);
            if bar.vol > 0.0 then bar.low <= Vwap(bar) <= bar.high else Vwap(bar) == 0.0
  {
    TurnoverIsBounded(g);
    BoundedVwap(BarOf(g));
  }

  lemma BoundedVwap(bar: Bar)
    requires Bounded(bar)
    ensures if bar.vol > 0.0 then bar.low <= Vwap(bar) <= bar.high else Vwap(bar) == 0.0
  {
    if bar.vol > 0.0 {
      QuotientInRange(bar.low, bar.high, bar.pv, bar.vol);
    }
  }

  // ----------------------------------------------- from trades back to rows

  lemma TradesSnoc(rows: seq<Row>, r: Row)
    ensures Trades(rows + [r]) == if IsValid(r) then Trades(rows) + [TradeOf(r)] else Trades(rows)
  {
    assert (rows + [r])[..|rows|] == rows;
  }

  // The trades of a second when a row is added.
  lemma SecondSnoc(rows: seq<Row>, r: Row, b: int)
    ensures InBucket(Trades(rows + [r]), b) ==
            InBucket(Trades(rows), b) + if CountsIn(r, b) then [TradeOf(r)] else []
  {
    TradesSnoc(rows, r);
    if IsValid(r) {
      assert (Trades(rows) + [TradeOf(r)])[..|Trades(rows)|] == Trades(rows);
      assert CountsIn(r, b) <==> TradeOf(r).bucket == b;
    }
  }

  // A column of trades that agrees with a column of rows has the same total.
  lemma {:induction false} ColumnTotal(rows: seq<Row>, b: int, f: GoodTrade -> real, qualifies: Row -> bool,
                                       value: Row -> real)
    requires forall r :: IsValid(r) ==> f(TradeOf(r)) == if qualifies(r) then value(r) else 0.0
    ensures Sum(Map(f, InBucket(Trades(rows), b))) == Total(rows, b, qualifies, value)
  {
    if rows == [] {
      assert Map(f, InBucket(Trades(rows), b)) == [];
    } else {
      var init, r := rows[..|rows| - 1], rows[|rows| - 1];
      assert rows == init + [r];
      ColumnTotal(init, b, f, qualifies, value);
      SecondSnoc(init, r, b);
      if CountsIn(r, b) {
        SumSnoc(f, InBucket(Trades(init), b), TradeOf(r));
      } else {
        assert InBucket(Trades(init), b) + [] == InBucket(Trades(init), b);
      }
    }
  }

  lemma {:induction false} SecondIsCounted(rows: seq<Row>, b: int)
    ensures |InBucket(Trades(rows), b)| == HowMany(rows, r => CountsIn(r, b))
  {
    if rows != [] {
      var init, r := rows[..|rows| - 1], rows[|rows| - 1];
      assert rows == init + [r];
      SecondIsCounted(init, b);
      SecondSnoc(init, r, b);
    }
  }

  lemma {:induction false} NoneCounted(rows: seq<Row>, b: int)
    ensures InBucket(Trades(rows), b) == [] <==> forall k :: 0 <= k < |rows| ==> !CountsIn(rows[k], b)
  {
    if rows != [] {
      var init, r := rows[..|rows| - 1], rows[|rows| - 1];
      assert rows == init + [r];
      NoneCounted(init, b);
      SecondSnoc(init, r, b);
    }
  }

  lemma {:induction false} StartOfSecond(rows: seq<Row>, b: int)
    requires InBucket(Trades(rows), b) != []
    ensures FirstPrice(rows, b, InBucket(Trades(rows), b)[0].price)
  {
    var n := |rows| - 1;
    var init, r := rows[..n], rows[n];
    assert rows == init + [r];
    SecondSnoc(init, r, b);
    var g' := InBucket(Trades(init), b);
    assert forall i :: 0 <= i < n ==> rows[i] == init[i];
    if g' == [] {
      NoneCounted(init, b);
      assert PriceAt(rows, b, n, r.price.value);
    } else {
      StartOfSecond(init, b);
      var k :| PriceAt(init, b, k, g'[0].price) && forall i :: 0 <= i < k ==> !CountsIn(init[i], b);
      assert PriceAt(rows, b, k, g'[0].price);
    }
  }

  lemma {:induction false} EndOfSecond(rows: seq<Row>, b: int)
    requires InBucket(Trades(rows), b) != []
    ensures var g := InBucket(Trades(rows), b);
            LastPrice(rows, b, g[|g| - 1].price)
  {
    var n := |rows| - 1;
    var init, r := rows[..n], rows[n];
    assert rows == init + [r];
    SecondSnoc(init, r, b);
    var g' := InBucket(Trades(init), b);
    assert forall i :: 0 <= i < n ==> rows[i] == init[i];
    if CountsIn(r, b) {
      assert PriceAt(rows, b, n, r.price.value);
    } else {
      assert g' + [] == g';
      EndOfSecond(init, b);
      var last := g'[|g'| - 1].price;
      var m :| PriceAt(init, b, m, last) && forall i :: m < i < |init| ==> !CountsIn(init[i], b);
      assert PriceAt(rows, b, m, last);
    }
  }

  lemma {:induction false} ExtremesOfSecond(rows: seq<Row>, b: int)
    requires InBucket(Trades(rows), b) != []
    ensures var prices := Map(price, InBucket(Trades(rows), b));
            TopPrice(rows, b, MaxOf(prices)) && BottomPrice(rows, b, MinOf(prices))
  {
    var n := |rows| - 1;
    var init, r := rows[..n], rows[n];
    assert rows == init + [r];
    SecondSnoc(init, r, b);
    var g' := InBucket(Trades(init), b);
    if CountsIn(r, b) {
      assert PriceAt(rows, b, n, r.price.value);
    }
    assert forall i :: 0 <= i < n ==> rows[i] == init[i];
    if g' == [] {
      NoneCounted(init, b);
      assert InBucket(Trades(rows), b) == [TradeOf(r)];
      assert Map(price, [TradeOf(r)]) == [r.price.value];
    } else {
      ExtremesOfSecond(init, b);
      var high, low := MaxOf(Map(price, g')), MinOf(Map(price, g'));
      var k :| PriceAt(init, b, k, high);
      assert PriceAt(rows, b, k, high);
      var m :| PriceAt(init, b, m, low);
      assert PriceAt(rows, b, m, low);
      if CountsIn(r, b) {
        ExtremesSnoc(price, g', TradeOf(r));
      } else {
        assert g' + [] == g';
      }
    }
  }

  lemma SidesOfSecond(rows: seq<Row>, b: int, g: seq<GoodTrade>)
    requires g == InBucket(Trades(rows), b)
    ensures Sum(Map(bought, g)) == Total(rows, b, IsBuy, Volume)
    ensures Sum(Map(sold, g)) == Total(rows, b, IsSell, Volume)
  {
    ColumnTotal(rows, b, bought, IsBuy, Volume);
    ColumnTotal(rows, b, sold, IsSell, Volume);
  }

  lemma TotalsOfSecond(rows: seq<Row>, b: int, g: seq<GoodTrade>)
    requires g == InBucket(Trades(rows), b)
    ensures Sum(Map(volume, g)) == Total(rows, b, AnyRow, Volume)
    ensures Sum(Map(turnover, g)) == Total(rows, b, AnyRow, Turnover)
  {
    ColumnTotal(rows, b, volume, AnyRow, Volume);
    ColumnTotal(rows, b, turnover, AnyRow, Turnover);
  }

  lemma VwapTimesVolume(bar: Bar)
    ensures if bar.vol > 0.0 then Vwap(bar) * bar.vol == bar.pv else Vwap(bar) == 0.0
  {
  }

  lemma BarIsSecond(rows: seq<Row>, b: int, bar: Bar)
    requires InBucket(Trades(rows), b) != [] && bar == BarOf(InBucket(Trades(rows), b))
    ensures IsSecond(rows, b, bar, Vwap(bar))
  {
    StartOfSecond(rows, b);
    EndOfSecond(rows, b);
    ExtremesOfSecond(rows, b);
    SidesOfSecond(rows, b, InBucket(Trades(rows), b));
    TotalsOfSecond(rows, b, InBucket(Trades(rows), b));
    SecondIsCounted(rows, b);
    VwapTimesVolume(bar);
  }

  // The one-pass bars say of every second what its rows say.
  lemma OnePassIsTable(total: map<int, (Bar, real)>, rows: seq<Row>)
    requires IsOnePass(total, Trades(rows))
    ensures IsTable(total, rows)
  {
    forall b
      ensures (b in total <==> exists k :: 0 <= k < |rows| && CountsIn(rows[k], b)) &&
              (b in total ==> IsSecond(rows, b, total[b].0, total[b].1))
    {
      NoneCounted(rows, b);
      if b in total {
        BarIsSecond(rows, b, total[b].0);
      }
    }
  }

  lemma {:induction false} RowsAreCounted(rows: seq<Row>)
    ensures Stats(|rows|, |rows| - |Trades(rows)|, UnknownSides(Trades(rows))) == CountedStats(rows)
    ensures Trades(rows) == [] <==> forall k :: 0 <= k < |rows| ==> !Usable(rows[k])
  {
    if rows != [] {
      var init, r := rows[..|rows| - 1], rows[|rows| - 1];
      assert rows == init + [r];
      RowsAreCounted(init);
      TradesSnoc(init, r);
    }
  }
}
