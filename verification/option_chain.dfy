/** The option-chain transformer of the options page.

    A flat list of option records is grouped into two nested maps, one per
    side (expiration -> strike -> metrics); one side is then cut down to a
    window of expirations and strikes, and the window is flattened into the
    three parallel plot axes. Expirations are millisecond timestamps, strikes
    are integer cents, and prices and metrics are exact reals. */
module OptionChain {
  import opened OrderedKeys
  import opened ScatterPlot

  /** Milliseconds in one day. */
  const MsPerDay: int := 86400000

  /** What is stored for each (expiration, strike) of one side. */
  datatype Metrics = Metrics(
    intrinsicValue: real,
    extrinsicValue: real,
    markPrice: real,
    delta: real,
    gamma: real,
    theta: real,
    vega: real,
    rho: real)

  /** The metric the plot shows on its z axis. */
  datatype MetricName =
    | IntrinsicValue | ExtrinsicValue | MarkPrice
    | Delta | Gamma | Theta | Vega | Rho

  /** Strike (in cents) -> metrics. */
  type StrikeMap = map<int, Metrics>

  /** Expiration (in ms) -> strike map. */
  type ExpiryMap = map<int, StrikeMap>

  datatype OptionsData = OptionsData(
    currentPrice: real,
    callOptions: ExpiryMap,
    putOptions: ExpiryMap)

  /** One option contract as the quote service reports it, already parsed:
      the expiration date as a timestamp, the strike in cents. */
  datatype OptionRecord = OptionRecord(
    expiration: int,
    strike: int,
    optionType: string,
    mark: real,
    delta: real,
    gamma: real,
    theta: real,
    vega: real,
    rho: real)

  /** The strike in currency units. */
  function StrikeValue(cents: int): real {
    cents as real / 100.0
  }

  /** The field of `m` that `name` selects. */
  function MetricValue(m: Metrics, name: MetricName): real {
    match name
    case IntrinsicValue => m.intrinsicValue
    case ExtrinsicValue => m.extrinsicValue
    case MarkPrice => m.markPrice
    case Delta => m.delta
    case Gamma => m.gamma
    case Theta => m.theta
    case Vega => m.vega
    case Rho => m.rho
  }

  /** The property name of the metric, which also names the z axis. */
  function MetricKey(name: MetricName): string {
    match name
    case IntrinsicValue => "intrinsicValue"
    case ExtrinsicValue => "extrinsicValue"
    case MarkPrice => "markPrice"
    case Delta => "delta"
    case Gamma => "gamma"
    case Theta => "theta"
    case Vega => "vega"
    case Rho => "rho"
  }

  // ---------------------------------------------------------------------
  // Intrinsic and extrinsic value
  // ---------------------------------------------------------------------

  function Max0(a: real): real {
    if 0.0 < a then a else 0.0
  }

  /** Intrinsic value of an option of the given type at `price`: the larger of
      0 and price - strike for a call, of 0 and strike - price for a put, and
      0 for any other type. */
  function Intrinsic(optionType: string, price: real, strike: real): (r: real)
    ensures r >= 0.0
    ensures optionType == "call" ==>
      r >= price - strike && (r == 0.0 || r == price - strike)
    ensures optionType == "put" ==>
      r >= strike - price && (r == 0.0 || r == strike - price)
    ensures optionType != "call" && optionType != "put" ==> r == 0.0
  {
    if optionType == "call" then Max0(price - strike)
    else if optionType == "put" then Max0(strike - price)
    else 0.0
  }

  /** The metrics stored for a record: its intrinsic value at `price`, the
      rest of its mark as extrinsic value, and its greeks unchanged. */
  function MetricsOf(rec: OptionRecord, price: real): (m: Metrics)
    ensures m.intrinsicValue == Intrinsic(rec.optionType, price, StrikeValue(rec.strike))
    ensures m.intrinsicValue + m.extrinsicValue == m.markPrice == rec.mark
    ensures m.extrinsicValue <= rec.mark
    ensures m.delta == rec.delta && m.gamma == rec.gamma && m.theta == rec.theta
    ensures m.vega == rec.vega && m.rho == rec.rho
  {
    var intrinsic := Intrinsic(rec.optionType, price, StrikeValue(rec.strike));
    Metrics(intrinsic, rec.mark - intrinsic, rec.mark,
            rec.delta, rec.gamma, rec.theta, rec.vega, rec.rho)
  }

  // ---------------------------------------------------------------------
  // Grouping
  // ---------------------------------------------------------------------

  /** Stores `v` under expiration `e` and strike `s`, creating the expiration
      entry when it is missing. */
  function Store(m: ExpiryMap, e: int, s: int, v: Metrics): (r: ExpiryMap)
    ensures forall e2 :: e2 in r <==> e2 in m || e2 == e
    ensures e in r && s in r[e] && r[e][s] == v
    ensures forall e2, s2 :: e2 in r && s2 in r[e2] <==>
      (e2 in m && s2 in m[e2]) || (e2 == e && s2 == s)
    ensures forall e2, s2 :: e2 in m && s2 in m[e2] && (e2 != e || s2 != s) ==>
      r[e2][s2] == m[e2][s2]
    ensures forall e2 :: e2 in r && e2 != e ==> r[e2] == m[e2]
  {
    m[e := (if e in m then m[e] else map[])[s := v]]
  }

  /** The map of one side after the records `recs` have been processed in
      order: every record of that side stored under its expiration and
      strike, a later record replacing an earlier one. */
  function GroupSide(recs: seq<OptionRecord>, price: real, side: string): (r: ExpiryMap)
    ensures forall e :: e in r ==> r[e] != map[]
  {
    if recs == [] then map[]
    else
      var m := GroupSide(recs[..|recs| - 1], price, side);
      var rec := recs[|recs| - 1];
      if rec.optionType == side then Store(m, rec.expiration, rec.strike, MetricsOf(rec, price))
      else m
  }

  /** A record of the given side, expiration and strike. */
  predicate Supplies(rec: OptionRecord, side: string, e: int, s: int) {
    rec.optionType == side && rec.expiration == e && rec.strike == s
  }

  /** A side's map has an entry at (e, s) exactly when some record of that
      side has expiration e and strike s. */
  lemma {:induction false} GroupSideEntries(recs: seq<OptionRecord>, price: real, side: string, e: int, s: int)
    ensures var g := GroupSide(recs, price, side);
      (e in g && s in g[e]) <==> exists k :: 0 <= k < |recs| && Supplies(recs[k], side, e, s)
    decreases |recs|
  {
    if recs != [] {
      var front := recs[..|recs| - 1];
      GroupSideEntries(front, price, side, e, s);
      if exists k :: 0 <= k < |front| && Supplies(front[k], side, e, s) {
        var k :| 0 <= k < |front| && Supplies(front[k], side, e, s);
        assert recs[k] == front[k];
      }
      if exists k :: 0 <= k < |recs| && Supplies(recs[k], side, e, s) {
        var k :| 0 <= k < |recs| && Supplies(recs[k], side, e, s);
        if k < |front| {
          assert front[k] == recs[k];
        }
      }
    }
  }

  /** The metrics stored at (e, s) are those of the last record of that side,
      expiration and strike. */
  lemma {:induction false} GroupSideLastWins(recs: seq<OptionRecord>, price: real, side: string, k: int)
    requires 0 <= k < |recs|
    requires recs[k].optionType == side
    requires forall j :: k < j < |recs| ==>
      !Supplies(recs[j], side, recs[k].expiration, recs[k].strike)
    ensures var g := GroupSide(recs, price, side);
      && recs[k].expiration in g
      && recs[k].strike in g[recs[k].expiration]
      && g[recs[k].expiration][recs[k].strike] == MetricsOf(recs[k], price)
    decreases |recs|
  {
    var front := recs[..|recs| - 1];
    if k < |recs| - 1 {
      assert front[k] == recs[k];
      forall j | k < j < |front|
        ensures !Supplies(front[j], side, front[k].expiration, front[k].strike)
      {
        assert front[j] == recs[j];
      }
      GroupSideLastWins(front, price, side, k);
    }
  }

  /** fetchOptionPremiums after the download: every record is priced at
      `currentPrice` and stored in the map of its side; records of any other
      type are dropped. */
  method FetchOptionPremiums(records: seq<OptionRecord>, currentPrice: real)
    returns (data: OptionsData)
    ensures data.currentPrice == currentPrice
    ensures data.callOptions == GroupSide(records, currentPrice, "call")
    ensures data.putOptions == GroupSide(records, currentPrice, "put")
  {
    var callOptions: ExpiryMap := map[];
    var putOptions: ExpiryMap := map[];
    var i := 0;
    while i < |records|
      invariant 0 <= i <= |records|
      invariant callOptions == GroupSide(records[..i], currentPrice, "call")
      invariant putOptions == GroupSide(records[..i], currentPrice, "put")
    {
      var option := records[i];
      var metrics := MetricsOf(option, currentPrice);
      if option.optionType == "call" {
        if option.expiration !in callOptions {
          callOptions := callOptions[option.expiration := map[]];
        }
        callOptions := callOptions[option.expiration :=
          callOptions[option.expiration][option.strike := metrics]];
      } else if option.optionType == "put" {
        if option.expiration !in putOptions {
          putOptions := putOptions[option.expiration := map[]];
        }
        putOptions := putOptions[option.expiration :=
          putOptions[option.expiration][option.strike := metrics]];
      }
      assert records[..i + 1][..i] == records[..i];
      i := i + 1;
    }
    assert records[..i] == records;
    data := OptionsData(currentPrice, callOptions, putOptions);
  }

  // ---------------------------------------------------------------------
  // Filtering
  // ---------------------------------------------------------------------

  /** The strikes among `keys` of one expiration that lie in [from, to],
      with their metrics. */
  function Kept(inner: StrikeMap, keys: set<int>, from: real, to: real): StrikeMap {
    map s | s in keys && s in inner && from <= StrikeValue(s) <= to :: inner[s]
  }

  /** The expirations among `keys` that lie in [startMs, endMs] and keep at
      least one strike, with the strikes they keep. */
  function WindowOf(m: ExpiryMap, keys: set<int>, startMs: int, endMs: int, from: real, to: real): ExpiryMap {
    map e | e in keys && e in m && startMs <= e <= endMs && Kept(m[e], m[e].Keys, from, to) != map[]
      :: Kept(m[e], m[e].Keys, from, to)
  }

  /** The window of `m`: expirations in [startMs, endMs] and strikes in
      [from, to], both ends included. */
  function Window(m: ExpiryMap, startMs: int, endMs: int, from: real, to: real): ExpiryMap {
    WindowOf(m, m.Keys, startMs, endMs, from, to)
  }

  /** An (expiration, strike) entry is in the window exactly when both of its
      coordinates are in range, it keeps the very metrics it had, and no
      expiration is left without strikes. */
  lemma WindowSpec(m: ExpiryMap, startMs: int, endMs: int, from: real, to: real)
    ensures var r := Window(m, startMs, endMs, from, to);
      && (forall e, s :: e in r && s in r[e] <==>
            e in m && s in m[e] && startMs <= e <= endMs && from <= StrikeValue(s) <= to)
      && (forall e, s :: e in r && s in r[e] ==> e in m && s in m[e] && r[e][s] == m[e][s])
      && (forall e :: e in r ==> r[e] != map[])
  {
    assert forall e, s | e in m && s in m[e] && startMs <= e <= endMs && from <= StrikeValue(s) <= to ::
      s in Kept(m[e], m[e].Keys, from, to);
  }

  /** Taking one more expiration into account adds it exactly when it is in
      the date range and keeps a strike. */
  lemma WindowOfStep(m: ExpiryMap, keys: set<int>, e: int, startMs: int, endMs: int, from: real, to: real)
    requires e in m && e !in keys
    ensures e !in WindowOf(m, keys, startMs, endMs, from, to)
    ensures WindowOf(m, keys + {e}, startMs, endMs, from, to) ==
      if startMs <= e <= endMs && Kept(m[e], m[e].Keys, from, to) != map[]
      then WindowOf(m, keys, startMs, endMs, from, to)[e := Kept(m[e], m[e].Keys, from, to)]
      else WindowOf(m, keys, startMs, endMs, from, to)
  {
  }

  /** Taking one more strike into account adds it exactly when it is in
      range. */
  lemma KeptStep(inner: StrikeMap, keys: set<int>, s: int, from: real, to: real)
    requires s in inner
    ensures Kept(inner, keys + {s}, from, to) ==
      if from <= StrikeValue(s) <= to then Kept(inner, keys, from, to)[s := inner[s]]
      else Kept(inner, keys, from, to)
  {
  }

  /** `before` with the strikes `kept` under `expiry`, or `before` alone
      while no strike is kept. */
  function WithStrikes(before: ExpiryMap, expiry: int, kept: StrikeMap): ExpiryMap {
    if kept == map[] then before else before[expiry := kept]
  }

  /** Storing one more kept strike, creating the expiration entry when it is
      missing, adds that strike to the kept ones. */
  lemma AddStrike(before: ExpiryMap, expiry: int, kept: StrikeMap, strike: int, v: Metrics)
    requires expiry !in before
    ensures var f := WithStrikes(before, expiry, kept);
      var g := if expiry !in f then f[expiry := map[]] else f;
      g[expiry := g[expiry][strike := v]] == WithStrikes(before, expiry, kept[strike := v])
  {
    assert strike in kept[strike := v];
  }

  /** The side that filterData reads: calls exactly for "call", puts for
      any other option type. */
  function Side(data: OptionsData, optionType: string): ExpiryMap {
    if optionType == "call" then data.callOptions else data.putOptions
  }

  /** filterData: walks the expirations of the chosen side and, for each one
      in the date window, its strikes, creating the expiration entry on the
      first strike kept. */
  method FilterData(data: OptionsData, optionType: string, startMs: int, endMs: int,
                    fromStrike: real, toStrike: real)
    returns (filtered: ExpiryMap)
    ensures filtered == Window(Side(data, optionType), startMs, endMs, fromStrike, toStrike)
  {
    filtered := map[];
    var target := if optionType == "call" then data.callOptions else data.putOptions;
    var pending := target.Keys;
    while pending != {}
      invariant pending <= target.Keys
      invariant filtered == WindowOf(target, target.Keys - pending, startMs, endMs, fromStrike, toStrike)
      decreases |pending|
    {
      assert (forall y :: y !in pending) ==> pending == {};
      var expiry :| expiry in pending;
      WindowOfStep(target, target.Keys - pending, expiry, startMs, endMs, fromStrike, toStrike);
      if startMs <= expiry <= endMs {
        var inner := target[expiry];
        var strikes := inner.Keys;
        ghost var before := filtered;
        while strikes != {}
          invariant strikes <= inner.Keys
          invariant expiry !in before
          invariant filtered == WithStrikes(before, expiry, Kept(inner, inner.Keys - strikes, fromStrike, toStrike))
          decreases |strikes|
        {
          assert (forall y :: y !in strikes) ==> strikes == {};
          var strike :| strike in strikes;
          KeptStep(inner, inner.Keys - strikes, strike, fromStrike, toStrike);
          assert inner.Keys - (strikes - {strike}) == (inner.Keys - strikes) + {strike};
          if fromStrike <= StrikeValue(strike) <= toStrike {
            AddStrike(before, expiry, Kept(inner, inner.Keys - strikes, fromStrike, toStrike), strike, inner[strike]);
            if expiry !in filtered {
              filtered := filtered[expiry := map[]];
            }
            filtered := filtered[expiry := filtered[expiry][strike := inner[strike]]];
          }
          strikes := strikes - {strike};
        }
        assert inner.Keys - strikes == inner.Keys;
      }
      assert target.Keys - (pending - {expiry}) == (target.Keys - pending) + {expiry};
      pending := pending - {expiry};
    }
    assert target.Keys - pending == target.Keys;
  }

  // ---------------------------------------------------------------------
  // Flattening
  // ---------------------------------------------------------------------

  /** Whole days from `nowMs` to `expiryMs`, rounded up: at most 0 for an
      expiration already past, and negative once a full day or more has
      passed. */
  function DaysTilExpiration(expiryMs: int, nowMs: int): (d: int)
    ensures (d - 1) * MsPerDay < expiryMs - nowMs <= d * MsPerDay
    ensures expiryMs <= nowMs ==> d <= 0
    ensures expiryMs <= nowMs - MsPerDay ==> d < 0
  {
    -((nowMs - expiryMs) / MsPerDay)
  }

  /** One row of the plot: an expiration and one of its strikes. */
  datatype Entry = Entry(expiry: int, strike: int)

  /** The (expiration, strike) pairs present in `m`. */
  ghost function Entries(m: ExpiryMap): set<Entry> {
    set e, s | e in m && s in m[e] :: Entry(e, s)
  }

  /** The rows of expiration `e`, strikes ascending. */
  ghost function ExpiryRows(m: ExpiryMap, e: int): (r: seq<Entry>)
    requires e in m
    ensures |r| == |m[e]|
    ensures forall k :: 0 <= k < |r| ==> r[k].expiry == e && r[k].strike in m[e]
  {
    var strikes := Ascending(m[e].Keys);
    AscendingSpec(m[e].Keys);
    assert forall k :: 0 <= k < |strikes| ==> strikes[k] in strikes;
    seq(|strikes|, k requires 0 <= k < |strikes| => Entry(e, strikes[k]))
  }

  /** The rows of the expirations `es`, in the order given. */
  ghost function RowsOf(m: ExpiryMap, es: seq<int>): seq<Entry>
    requires forall k :: 0 <= k < |es| ==> es[k] in m
  {
    if es == [] then []
    else RowsOf(m, es[..|es| - 1]) + ExpiryRows(m, es[|es| - 1])
  }

  /** The rows mungeData produces for `m`: expirations ascending, and the
      strikes of each expiration ascending. */
  ghost function Rows(m: ExpiryMap): seq<Entry> {
    var es := Ascending(m.Keys);
    AscendingSpec(m.Keys);
    assert forall k :: 0 <= k < |es| ==> es[k] in es;
    RowsOf(m, es)
  }

  /** The three columns hold, row by row, the days until the row's
      expiration, its strike and the chosen metric of an entry of `m`. */
  ghost predicate Flattened(m: ExpiryMap, metric: MetricName, nowMs: int,
                            rows: seq<Entry>, xs: seq<real>, ys: seq<real>, zs: seq<real>)
  {
    && |xs| == |rows| && |ys| == |rows| && |zs| == |rows|
    && forall k :: 0 <= k < |rows| ==>
         && rows[k].expiry in m && rows[k].strike in m[rows[k].expiry]
         && xs[k] == DaysTilExpiration(rows[k].expiry, nowMs) as real
         && ys[k] == StrikeValue(rows[k].strike)
         && zs[k] == MetricValue(m[rows[k].expiry][rows[k].strike], metric)
  }

  /** Pushing one row's values onto the columns extends what they hold by
      that row. */
  lemma FlattenedPush(m: ExpiryMap, metric: MetricName, nowMs: int,
                      rows: seq<Entry>, xs: seq<real>, ys: seq<real>, zs: seq<real>, row: Entry)
    requires row.expiry in m && row.strike in m[row.expiry]
    requires Flattened(m, metric, nowMs, rows, xs, ys, zs)
    ensures Flattened(m, metric, nowMs, rows + [row],
                      xs + [DaysTilExpiration(row.expiry, nowMs) as real],
                      ys + [StrikeValue(row.strike)],
                      zs + [MetricValue(m[row.expiry][row.strike], metric)])
  {
  }

  /** One more strike of expiration `e` extends the columns by its row. */
  lemma FlattenedStep(m: ExpiryMap, metric: MetricName, nowMs: int, done: seq<Entry>, e: int, j: int,
                      xs: seq<real>, ys: seq<real>, zs: seq<real>)
    requires e in m && 0 <= j < |m[e]|
    requires Flattened(m, metric, nowMs, done + ExpiryRows(m, e)[..j], xs, ys, zs)
    ensures var strike := Ascending(m[e].Keys)[j];
      && strike in m[e]
      && Flattened(m, metric, nowMs, done + ExpiryRows(m, e)[..j + 1],
                   xs + [DaysTilExpiration(e, nowMs) as real],
                   ys + [StrikeValue(strike)],
                   zs + [MetricValue(m[e][strike], metric)])
  {
    var rows := ExpiryRows(m, e);
    assert rows[j] == Entry(e, Ascending(m[e].Keys)[j]);
    FlattenedPush(m, metric, nowMs, done + rows[..j], xs, ys, zs, rows[j]);
    assert done + rows[..j + 1] == (done + rows[..j]) + [rows[j]];
  }

  /** Row `a` comes before row `b`: an earlier expiration, or the same
      expiration and a lower strike. */
  predicate Before(a: Entry, b: Entry) {
    a.expiry < b.expiry || (a.expiry == b.expiry && a.strike < b.strike)
  }

  /** Every row comes before every later row. */
  predicate RowsSorted(r: seq<Entry>) {
    forall i, j :: 0 <= i < j < |r| ==> Before(r[i], r[j])
  }

  /** The rows of one expiration are exactly its strikes, ascending. */
  lemma ExpiryRowsSpec(m: ExpiryMap, e: int)
    requires e in m
    ensures forall x :: x in ExpiryRows(m, e) <==> x.expiry == e && x.strike in m[e]
    ensures RowsSorted(ExpiryRows(m, e))
  {
    var strikes := Ascending(m[e].Keys);
    var r := ExpiryRows(m, e);
    AscendingSpec(m[e].Keys);
    forall x: Entry | x.expiry == e && x.strike in m[e] ensures x in r {
      assert x.strike in strikes;
      var k :| 0 <= k < |strikes| && strikes[k] == x.strike;
      assert r[k] == x;
    }
    forall i, j | 0 <= i < j < |r| ensures Before(r[i], r[j]) {
      assert r[i].strike == strikes[i] && r[j].strike == strikes[j];
    }
  }

  /** Two sorted runs, every row of the first before every row of the
      second, form one sorted run. */
  lemma SortedConcat(a: seq<Entry>, b: seq<Entry>)
    requires RowsSorted(a) && RowsSorted(b)
    requires forall x, y :: x in a && y in b ==> Before(x, y)
    ensures RowsSorted(a + b)
  {
  }

  /** For expirations listed in strictly increasing order, the rows hold
      exactly their strikes, sorted by expiration and then strike. */
  lemma {:induction false} RowsOfSpec(m: ExpiryMap, es: seq<int>)
    requires forall k :: 0 <= k < |es| ==> es[k] in m
    requires StrictlyIncreasing(es)
    ensures forall x :: x in RowsOf(m, es) <==> x.expiry in es && x.expiry in m && x.strike in m[x.expiry]
    ensures RowsSorted(RowsOf(m, es))
    decreases |es|
  {
    if es != [] {
      var front, last := es[..|es| - 1], es[|es| - 1];
      assert StrictlyIncreasing(front);
      RowsOfSpec(m, front);
      ExpiryRowsSpec(m, last);
      var a, b := RowsOf(m, front), ExpiryRows(m, last);
      assert RowsOf(m, es) == a + b;
      forall x | x in a ensures x.expiry < last {
        var k :| 0 <= k < |front| && front[k] == x.expiry;
        assert es[k] == x.expiry;
      }
      SortedConcat(a, b);
      assert forall y :: y in es <==> y in front || y == last;
    }
  }

  /** A sorted run of rows has no repeated row, so it has as many rows as
      distinct elements. */
  lemma {:induction false} SortedCard(r: seq<Entry>)
    requires RowsSorted(r)
    ensures |set x | x in r| == |r|
    decreases |r|
  {
    if r != [] {
      var front, last := r[..|r| - 1], r[|r| - 1];
      assert RowsSorted(front);
      SortedCard(front);
      assert last !in front;
      assert (set x | x in r) == (set x | x in front) + {last};
    }
  }

  /** The rows mungeData produces are exactly the entries of the map, each
      once, sorted by expiration and then strike; so there are as many rows
      as entries, and none for an empty map. */
  lemma RowsSpec(m: ExpiryMap)
    ensures forall x :: x in Rows(m) <==> x in Entries(m)
    ensures RowsSorted(Rows(m))
    ensures |Rows(m)| == |Entries(m)|
  {
    var es := Ascending(m.Keys);
    AscendingSpec(m.Keys);
    assert forall k :: 0 <= k < |es| ==> es[k] in es;
    RowsOfSpec(m, es);
    SortedCard(Rows(m));
    assert (set x | x in Rows(m)) == Entries(m);
  }

  /** Plotting a window: the rows are exactly the entries of the chosen side
      whose expiration and strike are in range, so every plotted point lies
      inside both windows. */
  lemma PlottedWindow(data: OptionsData, optionType: string, startMs: int, endMs: int,
                      from: real, to: real, x: Entry)
    ensures var side := Side(data, optionType);
      x in Rows(Window(side, startMs, endMs, from, to)) <==>
        && x.expiry in side && x.strike in side[x.expiry]
        && startMs <= x.expiry <= endMs && from <= StrikeValue(x.strike) <= to
  {
    var w := Window(Side(data, optionType), startMs, endMs, from, to);
    RowsSpec(w);
    WindowSpec(Side(data, optionType), startMs, endMs, from, to);
    assert x in Entries(w) <==> x.expiry in w && x.strike in w[x.expiry];
  }

  /** Every expiration listed in ascending order is a key of the map. */
  lemma SortedExpiriesIn(m: ExpiryMap)
    ensures forall k :: 0 <= k < |Ascending(m.Keys)| ==> Ascending(m.Keys)[k] in m
  {
    var es := Ascending(m.Keys);
    AscendingSpec(m.Keys);
    assert forall k :: 0 <= k < |es| ==> es[k] in es;
  }

  /** The rows of one more expiration follow the rows of the earlier ones. */
  lemma RowsOfSnoc(m: ExpiryMap, es: seq<int>, e: int)
    requires forall k :: 0 <= k < |es| ==> es[k] in m
    requires e in m
    ensures RowsOf(m, es + [e]) == RowsOf(m, es) + ExpiryRows(m, e)
  {
  }

  /** mungeData: flattens `input` into the x (days until expiration),
      y (strike) and z (metric) axes, expirations ascending and strikes
      ascending within each, with `nowMs` standing for the current time. */
  method MungeData(input: ExpiryMap, metric: MetricName, nowMs: int) returns (output: AxisData)
    ensures output.x.name == "Days Til Expiration"
    ensures output.y.name == "Strike Price"
    ensures output.z.name == MetricKey(metric)
    ensures Flattened(input, metric, nowMs, Rows(input), output.x.data, output.y.data, output.z.data)
  {
    var xs: seq<real> := [];
    var ys: seq<real> := [];
    var zs: seq<real> := [];
    var sortedExpiries := SortAscending(input.Keys);
    SortedExpiriesIn(input);
    var i := 0;
    while i < |sortedExpiries|
      invariant 0 <= i <= |sortedExpiries|
      invariant forall k :: 0 <= k < |sortedExpiries| ==> sortedExpiries[k] in input
      invariant Flattened(input, metric, nowMs, RowsOf(input, sortedExpiries[..i]), xs, ys, zs)
    {
      var expiry := sortedExpiries[i];
      var daysTilExpiration := DaysTilExpiration(expiry, nowMs);
      var strikes := SortAscending(input[expiry].Keys);
      ghost var done := RowsOf(input, sortedExpiries[..i]);
      ghost var rows := ExpiryRows(input, expiry);
      var j := 0;
      while j < |strikes|
        invariant 0 <= j <= |strikes|
        invariant Flattened(input, metric, nowMs, done + rows[..j], xs, ys, zs)
      {
        var strike := strikes[j];
        FlattenedStep(input, metric, nowMs, done, expiry, j, xs, ys, zs);
        xs := xs + [daysTilExpiration as real];
        ys := ys + [StrikeValue(strike)];
        zs := zs + [MetricValue(input[expiry][strike], metric)];
        j := j + 1;
      }
      assert rows[..j] == rows;
      assert sortedExpiries[..i + 1] == sortedExpiries[..i] + [expiry];
      RowsOfSnoc(input, sortedExpiries[..i], expiry);
      i := i + 1;
    }
    assert sortedExpiries[..i] == sortedExpiries;
    output := AxisData(Axis("Days Til Expiration", xs),
                       Axis("Strike Price", ys),
                       Axis(MetricKey(metric), zs));
  }
}
