/**
 * The depth colour scale of the earthquake map (`getColor`).
 *
 * A depth in kilometres is classified into one of six bins by strict `>`
 * comparisons against 90, 70, 50, 30 and 10, tried from the deepest threshold
 * down. A depth exactly on a threshold therefore lands in the LOWER bin.
 */
module ColorScale {

  /** The six fill swatches, from the shallowest bin (0) to the deepest (5). */
  datatype Swatch = Lime | Chartreuse | Yellow | Amber | Orange | Coral
  {
    /** The bin this swatch stands for. */
    function Index(): (k: nat)
      ensures k < BinCount
    {
      match this
      case Lime => 0
      case Chartreuse => 1
      case Yellow => 2
      case Amber => 3
      case Orange => 4
      case Coral => 5
    }

    /** The CSS colour string the marker or legend square is painted with. */
    function Hex(): string {
      Palette[Index()]
    }
  }

  const BinCount: nat := 6

  /** The five thresholds, ascending: bin k (k < 5) ends at Thresholds[k], inclusive. */
  const Thresholds: seq<real> := [10.0, 30.0, 50.0, 70.0, 90.0]

  /** The six colour strings of the scale, shallowest first. */
  const Palette: seq<string> := ["#a3f600", "#dcf400", "#f7db11", "#fdb72a", "#fca35d", "#FF5f65"]

  /** The swatch of bin k. */
  function SwatchAt(k: nat): (s: Swatch)
    requires k < BinCount
    ensures s.Index() == k
  {
    [Lime, Chartreuse, Yellow, Amber, Orange, Coral][k]
  }

  /** Index and SwatchAt are inverse: a swatch is the swatch of its own bin. */
  lemma SwatchAtIndex(s: Swatch)
    ensures SwatchAt(s.Index()) == s
  {
  }

  /**
   * Depth d belongs to bin k: it lies above the threshold below bin k (bin 0
   * has none) and at or below the threshold that closes bin k (bin 5 has none).
   */
  predicate InBin(d: real, k: nat) {
    && k < BinCount
    && (k == 0 || Thresholds[k - 1] < d)
    && (k == BinCount - 1 || d <= Thresholds[k])
  }

  /** Number of thresholds in ts that d strictly exceeds. */
  function CountBelow(ts: seq<real>, d: real): (n: nat)
    ensures n <= |ts|
  {
    if ts == [] then 0
    else (if ts[0] < d then 1 else 0) + CountBelow(ts[1..], d)
  }

  /** getColor: the swatch for a depth; every depth falls in the swatch's bin. */
  function GetColor(depth: real): (c: Swatch)
    ensures InBin(depth, c.Index())
  {
    if depth > 90.0 then Coral
    else if depth > 70.0 then Orange
    else if depth > 50.0 then Amber
    else if depth > 30.0 then Yellow
    else if depth > 10.0 then Chartreuse
    else Lime
  }

  /** The bins partition the real line: a depth is in at most one bin. */
  lemma BinUnique(d: real, j: nat, k: nat)
    requires InBin(d, j) && InBin(d, k)
    ensures j == k
  {
  }

  /** getColor classifies exactly: it picks bin k if and only if the depth is in bin k. */
  lemma GetColorExact(d: real, k: nat)
    ensures GetColor(d).Index() == k <==> InBin(d, k)
  {
  }

  /** getColor is total onto the palette: every depth yields one of the six colour strings. */
  lemma GetColorInPalette(d: real)
    ensures GetColor(d).Hex() in Palette
    ensures GetColor(d).Hex() == Palette[GetColor(d).Index()]
  {
  }

  /** Different swatches have different colour strings. */
  lemma HexInjective(s: Swatch, t: Swatch)
    requires s.Hex() == t.Hex()
    ensures s == t
  {
  }

  /** A deeper event is never given a shallower bin's colour. */
  lemma GetColorMonotone(d1: real, d2: real)
    requires d1 <= d2
    ensures GetColor(d1).Index() <= GetColor(d2).Index()
  {
  }

  /** Every depth of 10 km or less, negative depths included, gets the lowest swatch. */
  lemma ShallowIsLime(d: real)
    requires d <= 10.0
    ensures GetColor(d) == Lime && GetColor(d).Hex() == "#a3f600"
  {
  }

  /**
   * Strict thresholds: the depth Thresholds[k] itself gets bin k's colour, and
   * every depth above it, up to the next threshold, gets bin k + 1's colour.
   */
  lemma StrictAtThreshold(k: nat, d: real)
    requires k < |Thresholds|
    ensures GetColor(Thresholds[k]).Index() == k
    ensures Thresholds[k] < d && (k + 1 == |Thresholds| || d <= Thresholds[k + 1])
            ==> GetColor(d).Index() == k + 1
  {
  }

  /** The colours at and just past the boundaries, as the page shows them. */
  lemma BoundaryColours()
    ensures GetColor(10.0).Hex() == "#a3f600" && GetColor(11.0).Hex() == "#dcf400"
    ensures GetColor(15.0).Hex() == "#dcf400"
    ensures GetColor(90.0).Hex() == "#fca35d" && GetColor(91.0).Hex() == "#FF5f65"
    ensures GetColor(-10.0).Hex() == "#a3f600"
  {
  }

  /** In an ascending table, a depth that lies between ts[k-1] and ts[k] exceeds exactly k thresholds. */
  lemma {:induction false} CountBelowSorted(ts: seq<real>, d: real, k: nat)
    requires forall i, j :: 0 <= i < j < |ts| ==> ts[i] <= ts[j]
    requires k <= |ts|
    requires k == 0 || ts[k - 1] < d
    requires k == |ts| || d <= ts[k]
    ensures CountBelow(ts, d) == k
  {
    if ts != [] {
      var rest := ts[1..];
      if k == 0 {
        assert !(ts[0] < d);
        CountBelowSorted(rest, d, 0);
      } else {
        assert ts[0] <= ts[k - 1];
        assert k - 1 == 0 || rest[k - 2] == ts[k - 1];
        assert k - 1 == |rest| || rest[k - 1] == ts[k];
        CountBelowSorted(rest, d, k - 1);
      }
    }
  }

  /** Reference definition: getColor's bin is the number of thresholds the depth strictly exceeds. */
  lemma GetColorCountsThresholds(d: real)
    ensures GetColor(d).Index() == CountBelow(Thresholds, d)
  {
    CountBelowSorted(Thresholds, d, GetColor(d).Index());
  }
}
