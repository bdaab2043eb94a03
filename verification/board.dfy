/**
  The game board: its list of bins and its configuration. Bin positions and
  widths, prefab instantiation and destruction are not modelled.
 */
module Board {
  import opened Teddy

  /** What the board holds: its bins, in order, and its current configuration. */
  datatype State = State(bins: seq<Bin>, configuration: Configuration)

  /** The bins display exactly the counts of the configuration, one bin per entry. */
  predicate Synced(b: State)
  {
    && |b.bins| == |b.configuration|
    && forall i :: 0 <= i < |b.bins| ==> b.bins[i].count == b.configuration[i]
  }

  /** Unity's integer Random.Range(lo, hi): lo is included, hi is excluded. */
  predicate RangeDraw(lo: int, hi: int, v: int)
  {
    lo <= v < hi
  }

  /** The random values one call of CreateNewBoard draws, in the order it draws them. */
  datatype Draws = Draws(binCount: int, contents: seq<int>)

  /**
    The draws CreateNewBoard can receive under constants `k`: the bin count
    from Random.Range(MinBins - 1, MaxBins + 1), then one value per bin from
    Random.Range(1, MaxBearsPerBin + 1).
   */
  predicate DrawsFit(k: Constants, d: Draws)
  {
    && RangeDraw(k.minBins - 1, k.maxBins + 1, d.binCount)
    && |d.contents| == d.binCount
    && forall i :: 0 <= i < |d.contents| ==> RangeDraw(1, k.maxBearsPerBin + 1, d.contents[i])
  }

  /** Board `b` is the fresh board built from draws `d`: one synced bin per drawn content. */
  predicate BuiltFrom(b: State, d: Draws)
  {
    && Synced(b)
    && |b.configuration| == |d.contents|
    && forall i :: 0 <= i < |d.contents| ==> b.configuration[i] == d.contents[i]
  }

  /**
    Writes binContents[i] into the count of bin i, for every bin. When
    binContents is shorter than the bin list, the write of the first missing
    index throws, leaving the earlier bins written and the later ones as they were.
   */
  method SetBinCounts(bins: seq<Bin>, binContents: seq<int>) returns (r: Result<seq<Bin>>)
    ensures r.Ok? <==> |bins| <= |binContents|
    ensures |r.After()| == |bins|
    ensures forall i :: 0 <= i < |bins| ==>
              r.After()[i].count == if i < |binContents| then binContents[i] else bins[i].count
  {
    var out := bins;
    var i := 0;
    while i < |bins|
      invariant 0 <= i <= |bins|
      invariant i <= |binContents|
      invariant |out| == |bins|
      invariant forall j :: 0 <= j < |bins| ==>
                  out[j].count == if j < i then binContents[j] else bins[j].count
    {
      if i >= |binContents| {
        return OutOfRange(out);
      }
      out := out[i := out[i].(count := binContents[i])];
      i := i + 1;
    }
    return Ok(out);
  }

  /**
    The Configuration setter: stores the value, then copies its counts into
    the bins. The value is stored even when the copy throws.
   */
  method SetConfiguration(b: State, value: Configuration) returns (r: Result<State>)
    ensures r.After().configuration == value
    ensures r.Ok? <==> |b.bins| <= |value|
    ensures |r.After().bins| == |b.bins|
    ensures forall i :: 0 <= i < |b.bins| ==>
              r.After().bins[i].count == if i < |value| then value[i] else b.bins[i].count
    ensures r.Ok? && |value| == |b.bins| ==> Synced(r.value)
  {
    var counts := SetBinCounts(b.bins, value);
    match counts
    case Ok(bins) =>
      r := Ok(State(bins, value));
    case OutOfRange(bins) =>
      r := OutOfRange(State(bins, value));
  }

  /**
    Builds a new board from the draws `d`: the old bins are all discarded,
    `d.binCount` new bins are added, bin i gets `d.contents[i]` bears, and the
    configuration is those contents.
   */
  method CreateNewBoard(b: State, k: Constants, d: Draws) returns (r: State)
    requires k.Valid()
    requires DrawsFit(k, d)
    ensures BuiltFrom(r, d)
    ensures |r.bins| == d.binCount
    ensures k.minBins - 1 <= |r.bins| <= k.maxBins
    ensures forall i :: 0 <= i < |r.configuration| ==> 1 <= r.configuration[i] <= k.maxBearsPerBin
    ensures !Empty(r.configuration) <==> |r.bins| > 0
  {
    // the old bins are destroyed and the list cleared
    var bins: seq<Bin> := [];
    var numberOfBins := d.binCount;
    var i := 0;
    while i < numberOfBins
      invariant 0 <= i <= numberOfBins
      invariant |bins| == i
    {
      // a new bin's count is overwritten by SetBinCounts below
      bins := bins + [Bin(0)];
      i := i + 1;
    }
    var binContents: seq<int> := [];
    i := 0;
    while i < numberOfBins
      invariant 0 <= i <= numberOfBins
      invariant binContents == d.contents[..i]
    {
      binContents := binContents + [d.contents[i]];
      i := i + 1;
    }
    assert binContents == d.contents;
    var configuration: Configuration := binContents;
    var counts := SetBinCounts(bins, binContents);
    r := State(counts.value, configuration);
    if |r.bins| > 0 {
      assert r.configuration[0] != 0;
    }
  }

  /**
    The bin counts CreateNewBoard can produce are exactly MinBins - 1 through
    MaxBins: one bin fewer is possible than the MinBins lower bound.
   */
  lemma DrawnBinCounts(k: Constants, n: int)
    requires k.Valid()
    ensures (exists d :: DrawsFit(k, d) && d.binCount == n) <==> k.minBins - 1 <= n <= k.maxBins
  {
    if k.minBins - 1 <= n <= k.maxBins {
      var d := Draws(n, seq(n, _ => 1));
      assert DrawsFit(k, d);
    }
  }
}
