/** The popup bound to each earthquake marker: a fixed three-line template
    over the magnitude, the depth and the place description. How JavaScript
    writes a non-integral number is not modelled; the popup takes that
    formatting as a function parameter. */
module Popups {
  import opened Wrappers
  import opened Markers

  const MagnitudeLabel: string := "Magnitude: "
  const DepthLabel: string := "<br>Depth in KM: "
  const PlaceLabel: string := "<br>Location Details: "

  /** The popup text of one feature, given the text JavaScript writes for a number. */
  function PopupText(feature: Feature, numberText: real -> string): string {
    MagnitudeLabel + numberText(feature.properties.mag)
    + DepthLabel + numberText(feature.geometry.coordinates.depth)
    + PlaceLabel + feature.properties.place
  }

  /** The three variable parts of a popup text. */
  datatype PopupFields = PopupFields(magnitude: string, depth: string, place: string)

  /** The index of the first '<' in `s`, or |s| when there is none. */
  function FirstTagStart(s: string): (i: nat)
    ensures i <= |s|
    ensures forall k :: 0 <= k < i ==> s[k] != '<'
    ensures i < |s| ==> s[i] == '<'
  {
    if s == [] || s[0] == '<' then 0 else 1 + FirstTagStart(s[1..])
  }

  predicate StartsWith(s: string, prefix: string) {
    |prefix| <= |s| && s[..|prefix|] == prefix
  }

  /** Expects the text `heading` at the start of `s`, then reads the field that runs up to
      the next '<'; gives the field and what follows it. */
  function ReadField(s: string, heading: string): Option<(string, string)> {
    if !StartsWith(s, heading) then None
    else
      var r := s[|heading|..];
      var i := FirstTagStart(r);
      Some((r[..i], r[i..]))
  }

  /** Splits a text of the shape `first + a + second + b + third + c` back into
      `a`, `b` and `c`, where `a` and `b` run up to the next '<'. */
  function ParseFields(s: string, first: string, second: string, third: string): Option<PopupFields> {
    match ReadField(s, first)
    case None => None
    case Some((a, r1)) =>
      match ReadField(r1, second)
      case None => None
      case Some((b, r2)) =>
        if StartsWith(r2, third) then Some(PopupFields(a, b, r2[|third|..]))
        else None
  }

  /** Splits a popup text back into its fields: the magnitude and depth texts
      run up to the next tag, the place is everything after the last heading. */
  function ParsePopup(s: string): Option<PopupFields> {
    ParseFields(s, MagnitudeLabel, DepthLabel, PlaceLabel)
  }

  lemma {:induction false} FirstTagStartOfConcat(a: string, b: string)
    requires '<' !in a
    requires |b| > 0 && b[0] == '<'
    ensures FirstTagStart(a + b) == |a|
  {
    if a != [] {
      assert (a + b)[1..] == a[1..] + b;
      FirstTagStartOfConcat(a[1..], b);
    } else {
      assert a + b == b;
    }
  }

  lemma ReadFieldOfConcat(heading: string, field: string, rest: string)
    requires '<' !in field
    requires |rest| > 0 && rest[0] == '<'
    ensures ReadField(heading + (field + rest), heading) == Some((field, rest))
  {
    var s := heading + (field + rest);
    assert s[..|heading|] == heading;
    assert s[|heading|..] == field + rest;
    FirstTagStartOfConcat(field, rest);
    assert (field + rest)[..|field|] == field;
    assert (field + rest)[|field|..] == rest;
  }

  lemma ReadFieldSound(s: string, heading: string, field: string, rest: string)
    requires ReadField(s, heading) == Some((field, rest))
    ensures s == heading + (field + rest)
  {
    var r := s[|heading|..];
    assert r == field + rest;
    assert s == s[..|heading|] + r;
  }

  lemma SplitPrefix(s: string, prefix: string)
    requires StartsWith(s, prefix)
    ensures s == prefix + s[|prefix|..]
  {
    assert s == s[..|prefix|] + s[|prefix|..];
  }

  lemma StripPrefix(p: string, rest: string)
    ensures StartsWith(p + rest, p) && (p + rest)[|p|..] == rest
  {
    assert (p + rest)[..|p|] == p;
  }

  lemma ConcatRightNested(a: string, b: string, c: string, d: string, e: string, f: string)
    ensures a + b + c + d + e + f == a + (b + (c + (d + (e + f))))
  {
  }

  lemma ParseFieldsOfConcat(first: string, second: string, third: string, a: string, b: string, c: string)
    requires '<' !in a && '<' !in b
    requires |second| > 0 && second[0] == '<'
    requires |third| > 0 && third[0] == '<'
    ensures ParseFields(first + a + second + b + third + c, first, second, third)
      == Some(PopupFields(a, b, c))
  {
    var tail2 := third + c;
    var tail1 := second + (b + tail2);
    ConcatRightNested(first, a, second, b, third, c);
    ReadFieldOfConcat(first, a, tail1);
    ReadFieldOfConcat(second, b, tail2);
    StripPrefix(third, c);
  }

  lemma ParseFieldsSound(s: string, first: string, second: string, third: string)
    requires ParseFields(s, first, second, third).Some?
    ensures var f := ParseFields(s, first, second, third).value;
      s == first + f.magnitude + second + f.depth + third + f.place
  {
    var f := ParseFields(s, first, second, third).value;
    var r1 := ReadField(s, first).value.1;
    ReadFieldSound(s, first, f.magnitude, r1);
    var r2 := ReadField(r1, second).value.1;
    ReadFieldSound(r1, second, f.depth, r2);
    SplitPrefix(r2, third);
    ConcatRightNested(first, f.magnitude, second, f.depth, third, f.place);
  }

  /** The popup text is exactly the template: reading it back yields the
      magnitude text, the depth text and the place, provided the two number
      texts hold no '<' (no JavaScript number text does). */
  lemma PopupRoundTrip(feature: Feature, numberText: real -> string)
    requires '<' !in numberText(feature.properties.mag)
    requires '<' !in numberText(feature.geometry.coordinates.depth)
    ensures ParsePopup(PopupText(feature, numberText))
      == Some(PopupFields(numberText(feature.properties.mag),
                          numberText(feature.geometry.coordinates.depth),
                          feature.properties.place))
  {
    assert DepthLabel[0] == '<' && PlaceLabel[0] == '<';
    ParseFieldsOfConcat(MagnitudeLabel, DepthLabel, PlaceLabel,
      numberText(feature.properties.mag), numberText(feature.geometry.coordinates.depth),
      feature.properties.place);
  }

  /** Conversely, every text that reads back as popup fields is exactly the
      template filled with those fields, with nothing before, between or after. */
  lemma ParsePopupSound(s: string)
    requires ParsePopup(s).Some?
    ensures var f := ParsePopup(s).value;
      s == MagnitudeLabel + f.magnitude + DepthLabel + f.depth + PlaceLabel + f.place
  {
    ParseFieldsSound(s, MagnitudeLabel, DepthLabel, PlaceLabel);
  }
}
