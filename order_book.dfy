/**
 * The order-book checks the depth strategies run before entering: `check_depth_of_market`
 * (false on a book shallower than `depth`, otherwise a comparison of the summed sizes of the
 * first `depth` bid and ask levels) and `analyze_large_orders` (is any level at least the
 * volume threshold). The checks run outside any `try`, so a division by a zero total raises
 * out of `populate_entry_trend`.
 */
module OrderBook {
  import opened Wrappers

  /** One `[price, size]` level of the book; the checks read only the size (`order[1]`). */
  datatype Entry = Entry(price: real, size: real)

  datatype Book = Book(bids: seq<Entry>, asks: seq<Entry>)

  /** A strategy's `SettingsObject` for one timeframe: the bids-to-asks delta and the depth of
      the depth check, and the threshold of the large-order check. */
  datatype Settings = Settings(delta: real, depth: int, volumeThreshold: real)

  /** Python's `xs[:n]` for an integer `n`: the first `n` elements, all of them when `n`
      exceeds the length, and all but the last `-n` when `n` is negative. */
  function Prefix(xs: seq<Entry>, n: int): (p: seq<Entry>)
    ensures 0 <= n <= |xs| ==> |p| == n
    ensures n > |xs| ==> p == xs
    ensures n < 0 ==> |p| == if |xs| + n < 0 then 0 else |xs| + n
    ensures |p| <= |xs| && p == xs[..|p|]
  {
    if n >= 0 then (if n <= |xs| then xs[..n] else xs)
    else if |xs| + n < 0 then []
    else xs[..|xs| + n]
  }

  /** `sum([e[1] for e in xs])`, 0 for an empty list. */
  function SumSizes(xs: seq<Entry>): (s: real)
    decreases |xs|
    ensures (forall i :: 0 <= i < |xs| ==> xs[i].size >= 0.0) ==> s >= 0.0
  {
    if xs == [] then 0.0 else xs[0].size + SumSizes(xs[1..])
  }

  /** The summed size of levels that all have size `s`. */
  lemma {:induction false} SumsOfConstantLevels(xs: seq<Entry>, s: real)
    requires forall i :: 0 <= i < |xs| ==> xs[i].size == s
    ensures SumSizes(xs) == (|xs| as real) * s
    decreases |xs|
  {
    if xs != [] {
      SumsOfConstantLevels(xs[1..], s);
    }
  }

  /** The guard every variant starts with: fewer than `depth` bid levels or ask levels. */
  predicate TooShallow(book: Book, depth: int) {
    |book.bids| < depth || |book.asks| < depth
  }

  /** The total bid and ask sizes over the first `depth` levels. */
  function TotalBids(book: Book, depth: int): real { SumSizes(Prefix(book.bids, depth)) }
  function TotalAsks(book: Book, depth: int): real { SumSizes(Prefix(book.asks, depth)) }

  /** The depth check that logs `total_bids / total_asks` before deciding (the RSI, Vidra and
      plain Goal_Depth files): the log line already raises on a zero ask total; with `exit` it
      compares asks/bids, otherwise bids/asks, strictly above `delta`. */
  function LoggedDepth(book: Book, depth: int, delta: real, exit: bool): (r: Result<bool>)
    ensures TooShallow(book, depth) ==> r == Ok(false)
    ensures !TooShallow(book, depth) && TotalAsks(book, depth) == 0.0 ==> r.Raise?
    ensures !TooShallow(book, depth) && exit && TotalBids(book, depth) == 0.0 ==> r.Raise?
    ensures r.Ok? && r.value ==> !TooShallow(book, depth)
  {
    if TooShallow(book, depth) then Ok(false)
    else
      var tb := TotalBids(book, depth);
      var ta := TotalAsks(book, depth);
      match Div(tb, ta)
      case Raise(e) => Raise(e)
      case Ok(ratio) =>
        if exit then
          match Div(ta, tb)
          case Raise(e) => Raise(e)
          case Ok(inverse) => Ok(inverse > delta)
        else Ok(ratio > delta)
  }

  /** The zero-guarded depth check (the INJ file): the entry ratio is `bids/asks`, or 0 when the
      ask total is 0; the exit comparison `asks/bids` has no guard. */
  function GuardedDepth(book: Book, depth: int, delta: real, exit: bool): (r: Result<bool>)
    ensures TooShallow(book, depth) ==> r == Ok(false)
    ensures !exit ==> r.Ok?
    ensures !exit && delta >= 0.0 && TotalAsks(book, depth) == 0.0 ==> r == Ok(false)
    ensures exit && !TooShallow(book, depth) ==> (r.Raise? <==> TotalBids(book, depth) == 0.0)
  {
    if TooShallow(book, depth) then Ok(false)
    else
      var tb := TotalBids(book, depth);
      var ta := TotalAsks(book, depth);
      var ratio := if ta != 0.0 then tb / ta else 0.0;
      if exit then
        match Div(ta, tb)
        case Raise(e) => Raise(e)
        case Ok(inverse) => Ok(inverse > delta)
      else Ok(ratio > delta)
  }

  /** The band depth check (the Depth_Futures file): a long needs bids/asks above `delta`, a
      short needs bids/asks below it. */
  function BandDepth(book: Book, depth: int, delta: real, isShort: bool): (r: Result<bool>)
    ensures TooShallow(book, depth) ==> r == Ok(false)
    ensures !TooShallow(book, depth) ==> (r.Raise? <==> TotalAsks(book, depth) == 0.0)
  {
    if TooShallow(book, depth) then Ok(false)
    else
      match Div(TotalBids(book, depth), TotalAsks(book, depth))
      case Raise(e) => Raise(e)
      case Ok(ratio) => Ok(if isShort then ratio < delta else ratio > delta)
  }

  /** A Python number handed to a parameter: the directed check receives its `depth` from the
      caller, which may be an `int` or a `float`. */
  datatype PyNum = PyInt(i: int) | PyFloat(f: real)

  /** `len(xs) < n` for a Python number `n`. */
  predicate LenBelow(len: nat, n: PyNum) {
    match n
    case PyInt(i) => len < i
    case PyFloat(f) => (len as real) < f
  }

  /** `xs[:n]`: slicing with a float raises `TypeError`, whatever its value. */
  function Slice(xs: seq<Entry>, n: PyNum): (r: Result<seq<Entry>>)
    ensures r.Raise? <==> n.PyFloat?
    ensures n.PyInt? ==> r == Ok(Prefix(xs, n.i))
  {
    match n
    case PyInt(i) => Ok(Prefix(xs, i))
    case PyFloat(_) => Raise(TypeError)
  }

  /** The direction-aware depth check (the Futures SUI file): a short compares asks/bids, a
      long bids/asks, strictly above `delta`. */
  function DirectedDepth(book: Book, delta: real, depth: PyNum, isShort: bool): (r: Result<bool>)
    ensures LenBelow(|book.bids|, depth) || LenBelow(|book.asks|, depth) ==> r == Ok(false)
    ensures depth.PyInt? ==> r == (if TooShallow(book, depth.i) then Ok(false)
                                   else var tb := TotalBids(book, depth.i); var ta := TotalAsks(book, depth.i);
                                        if isShort then (if tb == 0.0 then Raise(ZeroDivisionError) else Ok(ta / tb > delta))
                                        else (if ta == 0.0 then Raise(ZeroDivisionError) else Ok(tb / ta > delta)))
  {
    if LenBelow(|book.bids|, depth) || LenBelow(|book.asks|, depth) then Ok(false)
    else
      match Slice(book.bids, depth)
      case Raise(e) => Raise(e)
      case Ok(bids) =>
        match Slice(book.asks, depth)
        case Raise(e) => Raise(e)
        case Ok(asks) =>
          var tb := SumSizes(bids);
          var ta := SumSizes(asks);
          if isShort then
            match Div(ta, tb)
            case Raise(e) => Raise(e)
            case Ok(q) => Ok(q > delta)
          else
            match Div(tb, ta)
            case Raise(e) => Raise(e)
            case Ok(q) => Ok(q > delta)
  }

  /** Handed a float depth, the directed check never answers true: it answers false on a book
      with at most that many levels on a side, and raises on any deeper book. */
  lemma FloatDepthNeverTrue(book: Book, delta: real, f: real, isShort: bool)
    ensures DirectedDepth(book, delta, PyFloat(f), isShort) != Ok(true)
    ensures !LenBelow(|book.bids|, PyFloat(f)) && !LenBelow(|book.asks|, PyFloat(f))
            ==> DirectedDepth(book, delta, PyFloat(f), isShort) == Raise(TypeError)
  {
  }

  /** The levels the comprehension `[o for o in xs if o[1] >= threshold]` keeps, in order. */
  function Large(xs: seq<Entry>, threshold: real): (ys: seq<Entry>)
    decreases |xs|
    ensures forall i :: 0 <= i < |ys| ==> ys[i].size >= threshold && ys[i] in xs
    ensures |ys| > 0 <==> exists i :: 0 <= i < |xs| && xs[i].size >= threshold
  {
    if xs == [] then []
    else if xs[0].size >= threshold then [xs[0]] + Large(xs[1..], threshold)
    else
      var rest := Large(xs[1..], threshold);
      assert forall i :: 1 <= i < |xs| ==> xs[i] == xs[1..][i - 1];
      rest
  }

  /** `analyze_large_orders`: the large bids and large asks together are not empty. */
  function LargeOrders(book: Book, threshold: real): (r: bool)
    ensures r <==> (exists i :: 0 <= i < |book.bids| && book.bids[i].size >= threshold)
                   || (exists i :: 0 <= i < |book.asks| && book.asks[i].size >= threshold)
  {
    |Large(book.bids, threshold) + Large(book.asks, threshold)| > 0
  }

  /** Levels beyond `depth` play no part: appending deeper levels to either side changes no
      depth check (the guard and both totals see only the first `depth` levels). */
  lemma DeeperLevelsIgnored(book: Book, moreBids: seq<Entry>, moreAsks: seq<Entry>, depth: int, delta: real, exit: bool)
    requires 0 <= depth && !TooShallow(book, depth)
    ensures var deeper := Book(book.bids + moreBids, book.asks + moreAsks);
            LoggedDepth(deeper, depth, delta, exit) == LoggedDepth(book, depth, delta, exit)
            && GuardedDepth(deeper, depth, delta, exit) == GuardedDepth(book, depth, delta, exit)
            && BandDepth(deeper, depth, delta, exit) == BandDepth(book, depth, delta, exit)
  {
    var deeper := Book(book.bids + moreBids, book.asks + moreAsks);
    assert Prefix(deeper.bids, depth) == Prefix(book.bids, depth);
    assert Prefix(deeper.asks, depth) == Prefix(book.asks, depth);
  }

  /** On a book whose ask total over `depth` levels is positive, the entry comparison
      `bids/asks > delta` is the division-free `bids > delta * asks`. */
  lemma RatioAsProduct(book: Book, depth: int, delta: real)
    requires !TooShallow(book, depth) && TotalAsks(book, depth) > 0.0
    ensures LoggedDepth(book, depth, delta, false) == Ok(TotalBids(book, depth) > delta * TotalAsks(book, depth))
    ensures GuardedDepth(book, depth, delta, false) == LoggedDepth(book, depth, delta, false)
    ensures BandDepth(book, depth, delta, false) == LoggedDepth(book, depth, delta, false)
  {
    var tb := TotalBids(book, depth);
    var ta := TotalAsks(book, depth);
    ScaleBothSides(tb / ta, ta, tb, delta);
  }
}
