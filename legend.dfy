/**
 * The legend of the earthquake map (the label loop of `legend.onAdd`).
 *
 * The legend walks its own table of grades, -10, 10, 30, 50, 70, 90, and writes
 * one line per grade: a square painted with the colour of a depth one above
 * the grade, then "from–to" or, when there is no next grade, "from+". The
 * lines are joined with `<br>`. The grades are written out separately from the
 * thresholds of the colour scale; the lemmas below show that they agree.
 */
module Legend {
  import opened ColorScale

  datatype Option<T> = None | Some(value: T)

  /** The legend's bin lower bounds, as the page lists them. */
  const Grades: seq<int> := [-10, 10, 30, 50, 70, 90]

  /** Reading `grades[i]`: a number inside the array, `undefined` past its end. */
  function Lookup(a: seq<int>, i: nat): Option<int> {
    if i < |a| then Some(a[i]) else None
  }

  /** JavaScript truthiness of a number or `undefined`: both `undefined` and 0 are false. */
  predicate Truthy(v: Option<int>) {
    v.Some? && v.value != 0
  }

  /** The decimal digit character for d. */
  function DigitChar(d: nat): (c: char)
    requires d < 10
    ensures c as int == '0' as int + d
  {
    "0123456789"[d]
  }

  /** The value of a string of decimal digits, most significant first (0 for the empty string). */
  function NatValue(s: string): nat {
    if s == [] then 0
    else
      var c := s[|s| - 1];
      NatValue(s[..|s| - 1]) * 10 + (if '0' <= c <= '9' then c as int - '0' as int else 0)
  }

  /** The value of a numeral with an optional leading minus sign. */
  function IntValue(s: string): int {
    if s != [] && s[0] == '-' then -(NatValue(s[1..]) as int) else NatValue(s)
  }

  /** A numeral as JavaScript writes one: digits only, and no leading zero unless the numeral is "0". */
  predicate IsNumeral(s: string) {
    && |s| >= 1
    && (forall i :: 0 <= i < |s| ==> '0' <= s[i] <= '9')
    && (s[0] == '0' ==> s == "0")
  }

  /** The decimal numeral of a natural number, most significant digit first. */
  function NatString(n: nat): (s: string)
    ensures |s| >= 1 && '0' <= s[0] <= '9'
  {
    if n < 10 then [DigitChar(n)] else NatString(n / 10) + [DigitChar(n % 10)]
  }

  /** A natural number's numeral is well formed, starts with '0' only for 0, and reads back as that number. */
  lemma {:induction false} NatStringValue(n: nat)
    ensures IsNumeral(NatString(n))
    ensures NatString(n)[0] == '0' <==> n == 0
    ensures NatValue(NatString(n)) == n
  {
    var s := NatString(n);
    if n < 10 {
      assert s[..|s| - 1] == [];
    } else {
      var prefix := NatString(n / 10);
      NatStringValue(n / 10);
      assert s == prefix + [DigitChar(n % 10)];
      assert s[..|s| - 1] == prefix;
      assert s[0] == prefix[0];
    }
  }

  /** How JavaScript writes an integer-valued number into a string: a minus sign if negative, then the numeral. */
  function DecimalString(n: int): (s: string)
    ensures |s| >= 1
    ensures s[0] == '-' <==> n < 0
  {
    if n < 0 then "-" + NatString(-n) else NatString(n)
  }

  /** The string written for an integer reads back as that integer, and after the sign it is a numeral without leading zeros. */
  lemma DecimalStringValue(n: int)
    ensures IntValue(DecimalString(n)) == n
    ensures IsNumeral(if n < 0 then DecimalString(n)[1..] else DecimalString(n))
  {
    var s := DecimalString(n);
    if n < 0 {
      var digits := NatString(-n);
      NatStringValue(-n);
      assert s == "-" + digits;
      assert s[1..] == digits;
      assert IntValue(s) == -(NatValue(digits) as int);
    } else {
      NatStringValue(n);
    }
  }

  /** `parts.join(sep)`. */
  function Join(parts: seq<string>, sep: string): string {
    if |parts| == 0 then ""
    else if |parts| == 1 then parts[0]
    else parts[0] + sep + Join(parts[1..], sep)
  }

  const SwatchOpen: string := "<i style=\"background:"
  const SwatchClose: string := "; width: 14px; height: 14px; display: inline-block; margin-right: 8px;\"></i> "

  /** The range a legend line names: a closed-off interior bin or the open-ended top bin. */
  datatype Range = Between(lower: int, upper: int) | AndAbove(lower: int)

  /** A legend line: the colour square and the range written after it. */
  datatype Entry = Entry(swatch: Swatch, range: Range)

  /** What follows the lower bound: a dash and the upper bound, or a plus sign. */
  function RangeTail(r: Range): string {
    match r
    case Between(_, upper) => "&ndash;" + DecimalString(upper)
    case AndAbove(_) => "+"
  }

  /** A legend line's HTML: the colour square, then the lower bound, then what follows it. */
  function LineHtml(hex: string, lower: int, tail: string): string {
    SwatchOpen + hex + SwatchClose + DecimalString(lower) + tail
  }

  /** The HTML of one legend line. */
  function EntryHtml(e: Entry): string {
    LineHtml(e.swatch.Hex(), e.range.lower, RangeTail(e.range))
  }

  /**
   * What line i of the legend should say: bin i's colour, and the range from
   * grade i to grade i + 1, or upwards from the last grade.
   */
  function BinEntry(i: nat): (e: Entry)
    requires i < |Grades|
    ensures e.swatch.Index() == i
    ensures e.range.lower == Grades[i]
    ensures e.range.Between? <==> i < BinCount - 1
    ensures e.range.Between? ==> e.range.upper == Grades[i + 1]
  {
    Entry(SwatchAt(i), if i + 1 < |Grades| then Between(Grades[i], Grades[i + 1]) else AndAbove(Grades[i]))
  }

  /** Every upper bound the legend prints is a threshold of the colour scale, in the same order. */
  lemma GradesAreThresholds()
    ensures |Grades| == BinCount == |Thresholds| + 1
    ensures forall i :: 0 <= i < |Thresholds| ==> Grades[i + 1] as real == Thresholds[i]
  {
  }

  /**
   * The legend is right about the colour scale: every depth in the range line i
   * names, (grade i, grade i + 1] or above the last grade, gets line i's colour.
   */
  lemma LegendSwatchCoversBin(i: nat, d: real)
    requires i < |Grades|
    requires Grades[i] as real < d
    requires i + 1 == |Grades| || d <= Grades[i + 1] as real
    ensures GetColor(d) == BinEntry(i).swatch
  {
  }

  /** The square of line i, painted as `getColor(from + 1)`, is bin i's colour. */
  lemma LegendSwatchIsBinColour(i: nat)
    requires i < |Grades|
    ensures GetColor((Grades[i] + 1) as real) == SwatchAt(i)
  {
  }

  /** Depths at or below the legend's first grade also get the first line's colour. */
  lemma BelowLegendIsFirstColour(d: real)
    requires d <= Grades[0] as real
    ensures GetColor(d) == BinEntry(0).swatch
  {
  }

  /**
   * Reading `grades[i + 1]` in the loop: past the last grade it is `undefined`,
   * and no grade is 0, so it is truthy exactly for lines 0 to 4, where it is the next grade.
   */
  lemma NextGradeTruthy(i: nat)
    requires i < |Grades|
    ensures Truthy(Lookup(Grades, i + 1)) <==> i + 1 < |Grades|
    ensures i + 1 < |Grades| ==> Lookup(Grades, i + 1) == Some(Grades[i + 1])
  {
  }

  /** The label the loop pushes for one grade and the value read after it. */
  function LabelHtml(from: int, to: Option<int>): string {
    LineHtml(GetColor((from + 1) as real).Hex(), from, if Truthy(to) then "&ndash;" + DecimalString(to.value) else "+")
  }

  /** The label pushed for grade i is line i of the legend as it should read. */
  lemma LabelHtmlIsEntry(i: nat)
    requires i < |Grades|
    ensures LabelHtml(Grades[i], Lookup(Grades, i + 1)) == EntryHtml(BinEntry(i))
  {
    LegendSwatchIsBinColour(i);
    NextGradeTruthy(i);
  }

  /** The six lines of the legend, in order, each as it should read. */
  ghost predicate IsLegendLines(labels: seq<string>) {
    && |labels| == |Grades|
    && forall i :: 0 <= i < |Grades| ==> labels[i] == EntryHtml(BinEntry(i))
  }

  /** The first n lines of the legend, each as it should read. */
  ghost function LinesUpTo(n: nat): seq<string>
    requires n <= |Grades|
  {
    if n == 0 then [] else LinesUpTo(n - 1) + [EntryHtml(BinEntry(n - 1))]
  }

  /** The first n lines are n lines, and line i among them is line i of the legend. */
  lemma {:induction false} LineUpTo(n: nat, i: nat)
    requires i < n <= |Grades|
    ensures |LinesUpTo(n)| == n
    ensures LinesUpTo(n)[i] == EntryHtml(BinEntry(i))
  {
    if i < n - 1 {
      LineUpTo(n - 1, i);
    } else if n > 1 {
      LineUpTo(n - 1, 0);
    }
  }

  /** The loop of `legend.onAdd`: one label per grade, pushed in grade order. */
  method BuildLabels() returns (labels: seq<string>)
    ensures |labels| == |Grades| == 6
    ensures forall i :: 0 <= i < |Grades| ==> labels[i] == EntryHtml(BinEntry(i))
  {
    labels := [];
    var from: int, to: Option<int>;
    for i := 0 to |Grades|
      invariant labels == LinesUpTo(i)
    {
      from := Grades[i];
      to := Lookup(Grades, i + 1);
      var line := LabelHtml(from, to);
      LabelHtmlIsEntry(i);
      labels := labels + [line];
    }
    forall i | 0 <= i < |Grades|
      ensures labels[i] == EntryHtml(BinEntry(i))
    {
      LineUpTo(|Grades|, i);
    }
  }

  /** `legend.onAdd`: the six legend lines joined with `<br>` into the legend's HTML. */
  method OnAdd() returns (labels: seq<string>, innerHTML: string)
    ensures IsLegendLines(labels)
    ensures innerHTML == Join(labels, "<br>")
  {
    labels := BuildLabels();
    innerHTML := Join(labels, "<br>");
  }

  /** The first line reads "-10–10" in the lowest colour and the last "90+" in the deepest. */
  lemma LegendEndLines()
    ensures EntryHtml(BinEntry(0)) == SwatchOpen + "#a3f600" + SwatchClose + "-10&ndash;10"
    ensures EntryHtml(BinEntry(5)) == SwatchOpen + "#FF5f65" + SwatchClose + "90+"
  {
    assert NatString(1) == "1" && NatString(9) == "9";
    assert NatString(10) == "10" && NatString(90) == "90";
    assert DecimalString(-10) == "-10";
  }
}
