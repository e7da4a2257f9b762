/** The depth legend: a heading followed by one colour swatch row per entry of
    two parallel tables, appended one piece at a time to the inner HTML of a
    freshly created element. The tables, the palette (which differs from the
    marker palette) and the heading (whose closing tag is written `<h3>`) are
    kept exactly as the script has them. */
module Legend {
  import opened JsValues
  import Markers

  const LegendDepths: seq<int> := [-10, 10, 30, 50, 70, 90]
  const LegendColors: seq<string> :=
    ["#F0FF00", "#D4FF00", "#AAFF00", "#FF9300", "#FF8300", "#FF2A00"]
  const Heading: string := "<h3>Depth in KM<h3>"

  const SwatchOpen: string := "<i style='background: "
  const SwatchClose: string := "'></i> "
  const RangeDash: string := "&ndash;"
  const LineBreak: string := "<br>"

  /** The start of every row: the swatch in colour `color`, then the row's depth. */
  function RowHead(color: string, depth: int): string {
    SwatchOpen + color + SwatchClose + IntToString(depth)
  }

  /** Row `x` as the loop body builds it: the upper bound is printed when
      `depths[x + 1]` is truthy, otherwise the row ends in "+". */
  function Row(depths: seq<int>, colors: seq<string>, x: nat): string
    requires x < |depths| <= |colors|
  {
    SwatchOpen + colors[x] + SwatchClose + IntToString(depths[x])
    + (if Truthy(Index(depths, x + 1))
       then RangeDash + ToJsString(Index(depths, x + 1)) + LineBreak
       else "+")
  }

  /** The rows of the legend, in table order. */
  function RowList(depths: seq<int>, colors: seq<string>): (rows: seq<string>)
    requires |depths| <= |colors|
    ensures |rows| == |depths|
    ensures forall i {:trigger Row(depths, colors, i)} :: 0 <= i < |depths| ==> rows[i] == Row(depths, colors, i)
  {
    seq(|depths|, i requires 0 <= i < |depths| => Row(depths, colors, i))
  }

  /** The first `n` strings of `ss`, joined. */
  function Concat(ss: seq<string>, n: nat): string
    requires n <= |ss|
  {
    if n == 0 then "" else Concat(ss, n - 1) + ss[n - 1]
  }

  /** The whole legend text: heading, then the rows. */
  function LegendHtml(depths: seq<int>, colors: seq<string>): string
    requires |depths| <= |colors|
  {
    Heading + Concat(RowList(depths, colors), |depths|)
  }

  /** The element the legend is written into; `innerHTML` is treated as a
      plain text buffer. */
  class Div {
    const className: string
    var innerHTML: string

    constructor (className: string)
      ensures this.className == className && innerHTML == ""
    {
      this.className := className;
      innerHTML := "";
    }
  }

  /** Builds the legend element with the script's tables. */
  method OnAdd() returns (div: Div)
    ensures fresh(div) && div.className == "legend"
    ensures div.innerHTML == LegendHtml(LegendDepths, LegendColors)
  {
    div := new Div("legend");
    WriteLegend(div, LegendDepths, LegendColors);
  }

  /** The body of the legend builder over the given tables: append the
      heading, then one row per depth. */
  method WriteLegend(div: Div, depths: seq<int>, colors: seq<string>)
    requires |depths| <= |colors|
    modifies div
    ensures div.innerHTML == old(div.innerHTML) + LegendHtml(depths, colors)
  {
    div.innerHTML := div.innerHTML + Heading;
    ghost var before := div.innerHTML;
    ghost var rows := RowList(depths, colors);
    for x := 0 to |depths|
      invariant div.innerHTML == before + Concat(rows, x)
    {
      var row := SwatchOpen + colors[x] + SwatchClose + IntToString(depths[x])
        + (if Truthy(Index(depths, x + 1))
           then RangeDash + ToJsString(Index(depths, x + 1)) + LineBreak
           else "+");
      assert row == rows[x];
      AppendAssoc(before, Concat(rows, x), row);
      div.innerHTML := div.innerHTML + row;
    }
    AppendAssoc(old(div.innerHTML), Heading, Concat(rows, |depths|));
  }

  lemma AppendAssoc(a: string, b: string, c: string)
    ensures (a + b) + c == a + (b + c)
  {
  }

  /** Row `i` is its head followed by the range form exactly when a next entry
      exists and is not 0, and by "+" otherwise; so it ends in '+' exactly then. */
  lemma RowShape(depths: seq<int>, colors: seq<string>, i: nat)
    requires i < |depths| <= |colors|
    ensures var ranged := i + 1 < |depths| && depths[i + 1] != 0;
      Row(depths, colors, i) == RowHead(colors[i], depths[i])
        + (if ranged then RangeDash + IntToString(depths[i + 1]) + LineBreak else "+")
    ensures var ranged := i + 1 < |depths| && depths[i + 1] != 0;
      var row := Row(depths, colors, i);
      |row| > 0 && (row[|row| - 1] == '+' <==> !ranged)
  {
    TruthyIndex(depths, i + 1);
    var row := Row(depths, colors, i);
    var head := RowHead(colors[i], depths[i]);
    if i + 1 < |depths| && depths[i + 1] != 0 {
      var tail := RangeDash + IntToString(depths[i + 1]) + LineBreak;
      assert row == head + tail;
      assert row[|row| - 1] == tail[|tail| - 1] == '>';
    } else {
      assert row == head + "+";
    }
  }

  /** Row `i` shows colour `colors[i]` right after the swatch opening, and
      the text of `depths[i]` right after the swatch. */
  lemma RowShowsEntry(depths: seq<int>, colors: seq<string>, i: nat)
    requires i < |depths| <= |colors|
    ensures var row := Row(depths, colors, i);
      var c := |SwatchOpen|;
      var d := c + |colors[i]| + |SwatchClose|;
      |row| >= d + |IntToString(depths[i])|
      && row[..c] == SwatchOpen
      && row[c..c + |colors[i]|] == colors[i]
      && row[d..d + |IntToString(depths[i])|] == IntToString(depths[i])
  {
    var a, b, c, n := SwatchOpen, colors[i], SwatchClose, IntToString(depths[i]);
    var tail := if Truthy(Index(depths, i + 1))
      then RangeDash + ToJsString(Index(depths, i + 1)) + LineBreak
      else "+";
    assert Row(depths, colors, i) == a + b + c + n + tail;
    SlicesOfNested(a, b, c, n, tail);
  }

  lemma SlicesOfNested(a: string, b: string, c: string, n: string, rest: string)
    ensures var s := a + b + c + n + rest;
      |s| >= |a| + |b| + |c| + |n|
      && s[..|a|] == a
      && s[|a|..|a| + |b|] == b
      && s[|a| + |b| + |c|..|a| + |b| + |c| + |n|] == n
  {
    var s := a + b + c + n + rest;
    assert s == a + (b + (c + (n + rest)));
    assert s[|a|..] == b + (c + (n + rest));
    assert s[|a| + |b| + |c|..] == n + rest;
  }

  /** Joining fewer strings gives a prefix of joining more. */
  lemma {:induction false} ConcatPrefix(ss: seq<string>, i: nat, n: nat)
    requires i <= n <= |ss|
    ensures |Concat(ss, i)| <= |Concat(ss, n)|
    ensures Concat(ss, n)[..|Concat(ss, i)|] == Concat(ss, i)
    decreases n
  {
    if i < n {
      ConcatPrefix(ss, i, n - 1);
      var p, q := Concat(ss, i), Concat(ss, n - 1);
      assert Concat(ss, n) == q + ss[n - 1];
      assert (q + ss[n - 1])[..|p|] == q[..|p|];
    }
  }

  lemma SliceOfPrefix(s: string, p: string, a: nat, b: nat)
    requires |p| <= |s| && s[..|p|] == p
    requires a <= b <= |p|
    ensures s[a..b] == p[a..b]
  {
    forall k | 0 <= k < b - a
      ensures s[a..b][k] == p[a..b][k]
    {
      assert s[a + k] == s[..|p|][a + k];
    }
  }

  lemma ShiftSlice(h: string, c: string, a: nat, b: nat)
    requires a <= b <= |c|
    ensures (h + c)[|h| + a..|h| + b] == c[a..b]
  {
    forall k | 0 <= k < b - a
      ensures (h + c)[|h| + a..|h| + b][k] == c[a..b][k]
    {
    }
  }

  lemma SuffixSlice(x: string, y: string)
    ensures (x + y)[|x|..|x| + |y|] == y
  {
  }

  /** The text `t` occurs in `s` starting at offset `o`. */
  predicate SitsAt(s: string, o: nat, t: string) {
    o + |t| <= |s| && s[o..o + |t|] == t
  }

  /** In `head` followed by the first `n` strings of `ss` joined, string `i`
      sits right after `head` and strings 0 to i - 1. */
  lemma {:induction false} JoinedAt(head: string, ss: seq<string>, i: nat, n: nat)
    requires i < n <= |ss|
    ensures SitsAt(head + Concat(ss, n), |head| + |Concat(ss, i)|, ss[i])
  {
    var front, p, c, x := Concat(ss, i), Concat(ss, i + 1), Concat(ss, n), ss[i];
    var a, b := |front|, |front| + |x|;
    assert p == front + x;
    assert p[a..b] == x by {
      SuffixSlice(front, x);
    }
    ConcatPrefix(ss, i + 1, n);
    assert c[a..b] == x by {
      SliceOfPrefix(c, p, a, b);
    }
    var o := |head| + a;
    assert o + |x| == |head| + b <= |head + c|;
    assert (head + c)[o..o + |x|] == x by {
      ShiftSlice(head, c, a, b);
    }
  }

  /** Row `i` of the legend, the loop body's text for index `i`, sits in the
      legend text right after the heading and rows 0 to i - 1, so the text
      shows the rows one after another in table order. */
  lemma {:induction false} RowAt(depths: seq<int>, colors: seq<string>, i: nat)
    requires i < |depths| <= |colors|
    ensures var rows := RowList(depths, colors);
      rows[i] == Row(depths, colors, i)
      && SitsAt(LegendHtml(depths, colors), |Heading| + |Concat(rows, i)|, rows[i])
  {
    JoinedAt(Heading, RowList(depths, colors), i, |depths|);
  }

  /** With the script's tables: six rows, the first five with a range up to the
      next entry, the last one open-ended. */
  lemma FixedLegendRows(i: nat)
    requires i < 6
    ensures |LegendDepths| == |LegendColors| == |RowList(LegendDepths, LegendColors)| == 6
    ensures i < 5 ==>
      Row(LegendDepths, LegendColors, i)
        == RowHead(LegendColors[i], LegendDepths[i]) + (RangeDash + IntToString(LegendDepths[i + 1]) + LineBreak)
    ensures i == 5 ==> Row(LegendDepths, LegendColors, i) == RowHead(LegendColors[5], LegendDepths[5]) + "+"
  {
    RowShape(LegendDepths, LegendColors, i);
  }

  /** The decimal texts of the script's legend bounds. */
  lemma LegendBoundTexts()
    ensures IntToString(-10) == "-10" && IntToString(10) == "10"
    ensures IntToString(30) == "30" && IntToString(50) == "50"
    ensures IntToString(70) == "70" && IntToString(90) == "90"
  {
    assert NatToString(1) == "1" && NatToString(3) == "3" && NatToString(5) == "5";
    assert NatToString(7) == "7" && NatToString(9) == "9";
  }

  /** The complete text of the script's legend, row by row. */
  lemma FixedLegendText()
    ensures LegendHtml(LegendDepths, LegendColors) == Heading
      + (SwatchOpen + "#F0FF00" + SwatchClose + "-10" + (RangeDash + "10" + LineBreak))
      + (SwatchOpen + "#D4FF00" + SwatchClose + "10" + (RangeDash + "30" + LineBreak))
      + (SwatchOpen + "#AAFF00" + SwatchClose + "30" + (RangeDash + "50" + LineBreak))
      + (SwatchOpen + "#FF9300" + SwatchClose + "50" + (RangeDash + "70" + LineBreak))
      + (SwatchOpen + "#FF8300" + SwatchClose + "70" + (RangeDash + "90" + LineBreak))
      + (SwatchOpen + "#FF2A00" + SwatchClose + "90" + "+")
  {
    var rows := RowList(LegendDepths, LegendColors);
    LegendBoundTexts();
    assert rows[0] == SwatchOpen + "#F0FF00" + SwatchClose + "-10" + (RangeDash + "10" + LineBreak);
    assert rows[1] == SwatchOpen + "#D4FF00" + SwatchClose + "10" + (RangeDash + "30" + LineBreak);
    assert rows[2] == SwatchOpen + "#AAFF00" + SwatchClose + "30" + (RangeDash + "50" + LineBreak);
    assert rows[3] == SwatchOpen + "#FF9300" + SwatchClose + "50" + (RangeDash + "70" + LineBreak);
    assert rows[4] == SwatchOpen + "#FF8300" + SwatchClose + "70" + (RangeDash + "90" + LineBreak);
    assert rows[5] == SwatchOpen + "#FF2A00" + SwatchClose + "90" + "+";
    ConcatSix(rows);
    ConcatRightNested7(Heading, rows[0], rows[1], rows[2], rows[3], rows[4], rows[5]);
  }

  lemma ConcatSix(ss: seq<string>)
    requires |ss| == 6
    ensures Concat(ss, 6) == ss[0] + ss[1] + ss[2] + ss[3] + ss[4] + ss[5]
  {
    assert Concat(ss, 1) == ss[0];
    assert Concat(ss, 2) == ss[0] + ss[1];
    assert Concat(ss, 3) == ss[0] + ss[1] + ss[2];
    assert Concat(ss, 4) == ss[0] + ss[1] + ss[2] + ss[3];
    assert Concat(ss, 5) == ss[0] + ss[1] + ss[2] + ss[3] + ss[4];
  }

  lemma ConcatRightNested7(h: string, a: string, b: string, c: string, d: string, e: string, f: string)
    ensures h + (a + b + c + d + e + f) == h + a + b + c + d + e + f
  {
  }

  /** The truthiness test also treats a 0 entry as the end of the table: a
      row followed by a 0 is printed open-ended although it is not the last. */
  lemma ZeroEntryEndsRange()
    ensures Row([-10, 0, 10], ["a", "b", "c"], 0) == "<i style='background: a'></i> -10+"
  {
    RowShape([-10, 0, 10], ["a", "b", "c"], 0);
    assert IntToString(-10) == "-10";
  }

  /** The legend's upper bounds are the marker thresholds ... */
  lemma LegendBoundsAreMarkerThresholds(i: nat)
    requires 1 <= i < |LegendDepths|
    ensures LegendDepths[i] as real == Markers.Thresholds[i - 1]
  {
  }

  /** ... but its swatches use none of the marker colours. */
  lemma LegendPaletteDiffersFromMarkers(i: nat, j: nat)
    requires i < |LegendColors| && j < |Markers.MarkerPalette|
    ensures LegendColors[i] != Markers.MarkerPalette[j]
  {
  }
}
