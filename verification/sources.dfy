// query_sources.py: the scan over a Product:4 `Source` response that fills in
// one source's name, type and visibility, the scan for the first `Value`
// element behind `SourceCount` and `SourceIndex`, and the per-source lines of
// the listing. A parsed SOAP response is the sequence of its elements in
// document order, each a tag and its text (`None` when the element has none);
// a request that fails, answers with a status other than 200 or does not
// parse is `None`.
module QuerySources {
  import opened Text

  datatype Element = Element(tag: string, text: Option<string>)

  datatype SourceInfo = SourceInfo(name: string, typ: string, visible: bool)

  /** What `get_source_details` starts from before looking at any element. */
  const Default := SourceInfo("Unknown", "Unknown", true)

  /** What `get_source_details` returns when the request or the parse fails. */
  function ErrorInfo(index: nat): (info: SourceInfo)
    ensures !info.visible && info.typ == "Error" && info.name == "Error-" + NatToString(index)
    ensures ParseInt(Some(info.name[|"Error-"|..])) == Some(index)
  {
    IndexReadBack(index);
    SourceInfo("Error-" + NatToString(index), "Error", false)
  }

  /** The name used for a source whose name element is empty. */
  function SourceLabel(index: nat): (s: string)
    ensures s == "Source " + NatToString(index)
    ensures ParseInt(Some(s[|"Source "|..])) == Some(index)
  {
    IndexReadBack(index);
    "Source " + NatToString(index)
  }

  /** The decimal text of an index reads back as that index. */
  lemma IndexReadBack(index: nat)
    ensures ParseInt(Some(NatToString(index))) == Some(index)
  {
    ParseIntRoundTrip(index);
  }

  // ------------------------------------------------------------ fields

  /** Which field an element sets: the `if`/`elif` chain on the tag's suffix. */
  datatype Field = NameField | SystemNameField | TypeField | VisibleField | OtherField

  function FieldOf(tag: string): Field {
    if EndsWith(tag, "Name") then NameField
    else if EndsWith(tag, "SystemName") then SystemNameField
    else if EndsWith(tag, "Type") then TypeField
    else if EndsWith(tag, "Visible") then VisibleField
    else OtherField
  }

  /** Every tag ending in `SystemName` already ends in `Name`, so the
      `SystemName` branch is never taken; the other three branches are
      chosen by the tag's suffix alone. */
  lemma FieldBySuffix(tag: string)
    ensures FieldOf(tag) != SystemNameField
    ensures FieldOf(tag) == NameField <==> EndsWith(tag, "Name")
    ensures FieldOf(tag) == TypeField <==> EndsWith(tag, "Type")
    ensures FieldOf(tag) == VisibleField <==> EndsWith(tag, "Visible")
  {
    var n := |tag|;
    if EndsWith(tag, "SystemName") {
      assert tag[n - 4..] == tag[n - 10..][6..];
    }
    if EndsWith(tag, "Type") {
      assert tag[n - 3] == tag[n - 4..][1] == 'y';
    }
  }

  /** The lower-cased, stripped text the `Visible` branch compares. */
  function VisibleWord(text: Option<string>): string {
    Lower(Strip(OrElse(text, "")))
  }

  /** The three-way reading of `Visible`: only `false`, `0` and `no` hide a
      source; `true`, `1`, `yes`, an empty or missing text and anything else
      leave it visible. */
  function ParseVisible(text: Option<string>): (visible: bool)
    ensures !visible <==> VisibleWord(text) in {"false", "0", "no"}
    ensures !Present(text) ==> visible
  {
    var txt := VisibleWord(text);
    if txt == "true" || txt == "1" || txt == "yes" then true
    else if txt == "false" || txt == "0" || txt == "no" then false
    else true
  }

  /** One pass of the loop body over element `e`. */
  function Apply(info: SourceInfo, e: Element, index: nat): SourceInfo {
    match FieldOf(e.tag)
    case NameField => info.(name := OrElse(e.text, SourceLabel(index)))
    case SystemNameField => info.(name := OrElse(e.text, SourceLabel(index)))
    case TypeField => info.(typ := OrElse(e.text, "Unknown"))
    case VisibleField => info.(visible := ParseVisible(e.text))
    case OtherField => info
  }

  /** The record after the loop has seen `elems`. */
  function Details(elems: seq<Element>, index: nat): SourceInfo
    decreases |elems|
  {
    if elems == [] then Default
    else Apply(Details(elems[..|elems| - 1], index), elems[|elems| - 1], index)
  }

  /** The position of the last element whose tag selects field `f`. */
  function LastWith(elems: seq<Element>, f: Field): (r: Option<nat>)
    ensures r.Some? ==> r.value < |elems| && FieldOf(elems[r.value].tag) == f
    ensures r.Some? ==> forall j :: r.value < j < |elems| ==> FieldOf(elems[j].tag) != f
    ensures r.None? ==> forall j :: 0 <= j < |elems| ==> FieldOf(elems[j].tag) != f
    decreases |elems|
  {
    if elems == [] then None
    else if FieldOf(elems[|elems| - 1].tag) == f then Some(|elems| - 1)
    else LastWith(elems[..|elems| - 1], f)
  }

  /** Last write wins for the name: it comes from the last element whose tag
      ends in `Name`, with `Source <i>` for an empty text, and stays `Unknown`
      when there is none. */
  lemma {:induction false} NameLastWins(elems: seq<Element>, index: nat)
    ensures var i := LastWith(elems, NameField);
            Details(elems, index).name == if i.None? then "Unknown" else OrElse(elems[i.value].text, SourceLabel(index))
    decreases |elems|
  {
    if elems != [] {
      var init, last := elems[..|elems| - 1], elems[|elems| - 1];
      NameLastWins(init, index);
      FieldBySuffix(last.tag);
      var i := LastWith(init, NameField);
      if FieldOf(last.tag) != NameField && i.Some? {
        assert init[i.value] == elems[i.value];
      }
    }
  }

  /** Last write wins for the type, with `Unknown` for an empty text or no element. */
  lemma {:induction false} TypeLastWins(elems: seq<Element>, index: nat)
    ensures var i := LastWith(elems, TypeField);
            Details(elems, index).typ == if i.None? then "Unknown" else OrElse(elems[i.value].text, "Unknown")
    decreases |elems|
  {
    if elems != [] {
      var init, last := elems[..|elems| - 1], elems[|elems| - 1];
      TypeLastWins(init, index);
      FieldBySuffix(last.tag);
      var i := LastWith(init, TypeField);
      if FieldOf(last.tag) != TypeField && i.Some? {
        assert init[i.value] == elems[i.value];
      }
    }
  }

  /** Last write wins for visibility; a source without a `Visible` element is visible. */
  lemma {:induction false} VisibleLastWins(elems: seq<Element>, index: nat)
    ensures var i := LastWith(elems, VisibleField);
            Details(elems, index).visible == if i.None? then true else ParseVisible(elems[i.value].text)
    decreases |elems|
  {
    if elems != [] {
      var init, last := elems[..|elems| - 1], elems[|elems| - 1];
      VisibleLastWins(init, index);
      FieldBySuffix(last.tag);
      var i := LastWith(init, VisibleField);
      if FieldOf(last.tag) != VisibleField && i.Some? {
        assert init[i.value] == elems[i.value];
      }
    }
  }

  /** A response without any `Name`, `Type` or `Visible` element gives the defaults. */
  lemma DetailsDefault(elems: seq<Element>, index: nat)
    requires forall j :: 0 <= j < |elems| ==> FieldOf(elems[j].tag) == OtherField
    ensures Details(elems, index) == Default
  {
    NameLastWins(elems, index);
    TypeLastWins(elems, index);
    VisibleLastWins(elems, index);
  }

  /** `get_source_details` once the response is in hand. */
  method GetSourceDetails(response: Option<seq<Element>>, index: nat) returns (info: SourceInfo)
    ensures response.None? ==> info == ErrorInfo(index)
    ensures response.Some? ==> info == Details(response.value, index)
  {
    if response.None? {
      return ErrorInfo(index);
    }
    var elems := response.value;
    info := Default;
    for k := 0 to |elems|
      invariant info == Details(elems[..k], index)
    {
      var e := elems[k];
      if EndsWith(e.tag, "Name") {
        info := info.(name := OrElse(e.text, SourceLabel(index)));
      } else if EndsWith(e.tag, "SystemName") {
        info := info.(name := OrElse(e.text, SourceLabel(index)));
      } else if EndsWith(e.tag, "Type") {
        info := info.(typ := OrElse(e.text, "Unknown"));
      } else if EndsWith(e.tag, "Visible") {
        var txt := Lower(Strip(OrElse(e.text, "")));
        if txt == "true" || txt == "1" || txt == "yes" {
          info := info.(visible := true);
        } else if txt == "false" || txt == "0" || txt == "no" {
          info := info.(visible := false);
        } else {
          info := info.(visible := true);
        }
      }
      assert elems[..k + 1][..k] == elems[..k];
    }
    assert elems[..|elems|] == elems;
  }

  // ------------------------------------------------------------ values

  /** Python's `int(text)` on a decimal text: surrounding whitespace, an
      optional sign, then ASCII digits; `None` where `int` raises. */
  function ParseInt(text: Option<string>): (r: Option<int>)
    ensures r.Some? ==> text.Some? && Strip(text.value) != []
    ensures r.Some? && r.value < 0 ==> Strip(text.value)[0] == '-'
  {
    if text.None? then None
    else
      var t := Strip(text.value);
      if |t| >= 2 && (t[0] == '-' || t[0] == '+') && AllDigits(t[1..]) then
        var v: int := DigitsValue(t[1..]);
        Some(if t[0] == '-' then -v else v)
      else if t != [] && AllDigits(t) then Some(DigitsValue(t))
      else None
  }

  /** `int(str(i)) == i`. */
  lemma ParseIntRoundTrip(i: int)
    ensures ParseInt(Some(IntToString(i))) == Some(i)
  {
    var n: nat := if i < 0 then -i else i;
    var s := NatToString(n);
    NatToStringValue(n);
    StripNoop(IntToString(i));
    if i < 0 {
      assert IntToString(i)[1..] == s;
    }
  }

  /** The integer in the first element whose tag ends in `Value`; `None`
      when there is no such element or its text is not an integer. */
  function FirstValue(elems: seq<Element>): (r: Option<int>)
    ensures (forall j :: 0 <= j < |elems| ==> !EndsWith(elems[j].tag, "Value")) ==> r.None?
    decreases |elems|
  {
    if elems == [] then None
    else if EndsWith(elems[0].tag, "Value") then ParseInt(elems[0].text)
    else FirstValue(elems[1..])
  }

  /** Only the first `Value` element counts; later ones are never read. */
  lemma {:induction false} FirstValueIsFirst(elems: seq<Element>, i: nat)
    requires i < |elems| && EndsWith(elems[i].tag, "Value")
    requires forall j :: 0 <= j < i ==> !EndsWith(elems[j].tag, "Value")
    ensures FirstValue(elems) == ParseInt(elems[i].text)
    decreases i
  {
    if i > 0 {
      FirstValueIsFirst(elems[1..], i - 1);
    }
  }

  /** The loop over the response's elements that returns at the first `Value`. */
  method ScanValue(elems: seq<Element>) returns (value: Option<int>)
    ensures value == FirstValue(elems)
  {
    var k := 0;
    while k < |elems|
      invariant k <= |elems|
      invariant FirstValue(elems[k..]) == FirstValue(elems)
    {
      if EndsWith(elems[k].tag, "Value") {
        return ParseInt(elems[k].text);
      }
      assert elems[k..][1..] == elems[k + 1..];
      k := k + 1;
    }
    assert elems[k..] == [];
    value := None;
  }

  /** `get_source_count`: the first `Value`, or `None` on any failure. */
  method GetSourceCount(response: Option<seq<Element>>) returns (count: Option<int>)
    ensures response.None? ==> count.None?
    ensures response.Some? ==> count == FirstValue(response.value)
  {
    if response.None? {
      return None;
    }
    count := ScanValue(response.value);
  }

  /** `get_current_source`: the first `Value`, or -1 on any failure. */
  method GetCurrentSource(response: Option<seq<Element>>) returns (current: int)
    ensures response.None? ==> current == -1
    ensures response.Some? ==> current == match FirstValue(response.value) case Some(v) => v case None => -1
  {
    if response.None? {
      return -1;
    }
    var value := ScanValue(response.value);
    current := if value.Some? then value.value else -1;
  }

  // ----------------------------------------------------------- listing

  /** `[i] name (type)`, the part of a listing line before its markers. */
  function Entry(i: nat, info: SourceInfo): string {
    "[" + NatToString(i) + "] " + info.name + " (" + info.typ + ")"
  }

  /** One line of the listing: the entry, ` (HIDDEN)` for a hidden source,
      ` <- CURRENT` for the selected one. */
  function ListingLine(i: nat, info: SourceInfo, current: int): string {
    Entry(i, info) + (if info.visible then "" else " (HIDDEN)")
    + (if i == current then " <- CURRENT" else "")
  }

  /** A line is marked current exactly when its index is the selected one, and
      ` (HIDDEN)` follows the entry exactly when the source is not visible. */
  lemma ListingMarkers(i: nat, info: SourceInfo, current: int)
    ensures StartsWith(ListingLine(i, info, current), Entry(i, info))
    ensures EndsWith(ListingLine(i, info, current), " <- CURRENT") <==> i == current
    ensures OccursAt(ListingLine(i, info, current), " (HIDDEN)", |Entry(i, info)|) <==> !info.visible
  {
    var line := ListingLine(i, info, current);
    var e := Entry(i, info);
    var hidden := if info.visible then "" else " (HIDDEN)";
    var marker := if i == current then " <- CURRENT" else "";
    assert line == e + hidden + marker;
    assert e[|e| - 1] == ')';
    if i != current {
      assert line[|line| - 1] == ')';
    }
    if info.visible {
      assert line[|e|..] == marker;
      if i == current {
        assert line[|e| + 1] == '<';
      }
    } else {
      assert line[|e|..|e| + 9] == " (HIDDEN)";
    }
  }

  /** The loop in `main` over the sources' details, one line each. */
  method Listing(infos: seq<SourceInfo>, current: int) returns (lines: seq<string>)
    ensures |lines| == |infos|
    ensures forall k :: 0 <= k < |infos| ==> lines[k] == ListingLine(k, infos[k], current)
  {
    lines := [];
    for i := 0 to |infos|
      invariant |lines| == i
      invariant forall k :: 0 <= k < i ==> lines[k] == ListingLine(k, infos[k], current)
    {
      var currentMarker := if i == current then " <- CURRENT" else "";
      var visibleMarker := if infos[i].visible then "" else " (HIDDEN)";
      lines := lines + [Entry(i, infos[i]) + visibleMarker + currentMarker];
    }
  }

  /** Some line of the listing is marked current exactly when the selected
      index is one of the listed ones; a failed `SourceIndex` (-1) marks none. */
  lemma ListingMarksCurrent(infos: seq<SourceInfo>, current: int)
    ensures (exists k :: 0 <= k < |infos| && EndsWith(ListingLine(k, infos[k], current), " <- CURRENT"))
            <==> 0 <= current < |infos|
  {
    forall k | 0 <= k < |infos| {
      ListingMarkers(k, infos[k], current);
    }
    if 0 <= current < |infos| {
      assert EndsWith(ListingLine(current, infos[current], current), " <- CURRENT");
    }
  }
}
