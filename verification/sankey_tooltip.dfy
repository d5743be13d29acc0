/** The default tooltip pattern of the sankey series: one line for a hovered
    link or node, and one line per series entry for a dimension. Callbacks
    of the base series helper (key, value, shape) are named, not modelled. */
module SankeyTooltip {
  import opened Wrappers

  /** A JavaScript value as the datum carries it. */
  datatype JsVal = Undefined | Null | Bool(b: bool) | Num(n: real) | Str(s: string)

  predicate Truthy(v: JsVal) {
    match v
    case Undefined => false
    case Null => false
    case Bool(b) => b
    case Num(n) => n != 0.0
    case Str(s) => s != ""
  }

  /** A hovered link or node: `source`, `target`, the original `datum` and `key`. */
  datatype Datum = Datum(source: JsVal, target: JsVal, datum: Option<map<string, JsVal>>, key: JsVal)

  /** `String(v)`; numbers are printed by `numberText`, which is not modelled. */
  function ToText(v: JsVal, numberText: real -> string): string {
    match v
    case Undefined => "undefined"
    case Null => "null"
    case Bool(b) => if b then "true" else "false"
    case Num(n) => numberText(n)
    case Str(s) => s
  }

  /** A valid index: an integral number inside the series keys. */
  predicate IsIndex(seriesKeys: seq<string>, v: JsVal) {
    v.Num? && v.n.Floor as real == v.n && 0 <= v.n.Floor < |seriesKeys|
  }

  /** `seriesKeys[v]` turned into text: an integer index inside the array
      gives that key, anything else reads `undefined`. */
  function KeyAt(seriesKeys: seq<string>, v: JsVal): (r: string)
    ensures r == "undefined" || r in seriesKeys
  {
    if IsIndex(seriesKeys, v) then seriesKeys[v.n.Floor] else "undefined"
  }

  /** The title of the mark pattern; a link (truthy source) always reads as text. */
  function FormatTitle(d: Datum, seriesKeys: seq<string>, categoryField: string, numberText: real -> string): (r: JsVal)
    ensures Truthy(d.source) ==> r.Str?
  {
    if Truthy(d.source) then
      if d.source.Num? then Str(KeyAt(seriesKeys, d.source) + " => " + KeyAt(seriesKeys, d.target))
      else Str(ToText(d.source, numberText) + " => " + ToText(d.target, numberText))
    else if d.datum.Some? then (if categoryField in d.datum.value then d.datum.value[categoryField] else Undefined)
    else d.key
  }

  /** A link between two named nodes reads `source => target`, whatever
      the datum and the key. */
  lemma NamedLinkTitle(source: string, target: string, datum: Option<map<string, JsVal>>, key: JsVal,
                       seriesKeys: seq<string>, categoryField: string, numberText: real -> string)
    requires source != ""
    ensures FormatTitle(Datum(Str(source), Str(target), datum, key), seriesKeys, categoryField, numberText)
            == Str(source + " => " + target)
  {
  }

  /** A link between two node indices reads the two series keys; source 0
      is falsy and falls back to the category field. */
  lemma IndexedLinkTitle(seriesKeys: seq<string>, i: nat, j: nat, categoryField: string, row: map<string, JsVal>, numberText: real -> string)
    requires 0 < i < |seriesKeys| && j < |seriesKeys|
    ensures FormatTitle(Datum(Num(i as real), Num(j as real), None, Undefined), seriesKeys, categoryField, numberText)
            == Str(seriesKeys[i] + " => " + seriesKeys[j])
    ensures categoryField in row ==>
              FormatTitle(Datum(Num(0.0), Num(j as real), Some(row), Undefined), seriesKeys, categoryField, numberText)
              == row[categoryField]
  {
    assert (i as real).Floor == i;
    assert (j as real).Floor == j;
  }

  /** A link's title (truthy source) never looks at the datum or the key. */
  lemma LinkTitleIgnoresDatum(d: Datum, datum: Option<map<string, JsVal>>, key: JsVal,
                              seriesKeys: seq<string>, categoryField: string, numberText: real -> string)
    requires Truthy(d.source)
    ensures FormatTitle(d, seriesKeys, categoryField, numberText)
            == FormatTitle(d.(datum := datum, key := key), seriesKeys, categoryField, numberText)
  {
  }

  /** A node's title (falsy source) never looks at the target, the series
      keys or how numbers print. */
  lemma NodeTitleIgnoresLink(d: Datum, target: JsVal, seriesKeys: seq<string>, otherKeys: seq<string>,
                             categoryField: string, numberText: real -> string, otherText: real -> string)
    requires !Truthy(d.source)
    ensures FormatTitle(d, seriesKeys, categoryField, numberText)
            == FormatTitle(d.(target := target), otherKeys, categoryField, otherText)
  {
  }

  /** On a numeric link, a side that is not a valid index (negative, too
      large, fractional, or not a number at all on the target side) reads
      `undefined`; a valid index reads its series key. */
  lemma NumericLinkSides(d: Datum, seriesKeys: seq<string>, categoryField: string, numberText: real -> string)
    requires d.source.Num? && d.source.n != 0.0
    ensures var sourceText := if IsIndex(seriesKeys, d.source) then seriesKeys[d.source.n.Floor] else "undefined";
            var targetText := if IsIndex(seriesKeys, d.target) then seriesKeys[d.target.n.Floor] else "undefined";
            FormatTitle(d, seriesKeys, categoryField, numberText) == Str(sourceText + " => " + targetText)
  {
  }

  /** A node's title (falsy source) with a data row is that row's category
      field, or `undefined` when the row lacks it. */
  lemma NodeRowTitle(d: Datum, seriesKeys: seq<string>, categoryField: string, numberText: real -> string)
    requires !Truthy(d.source) && d.datum.Some?
    ensures categoryField in d.datum.value ==>
              FormatTitle(d, seriesKeys, categoryField, numberText) == d.datum.value[categoryField]
    ensures categoryField !in d.datum.value ==> FormatTitle(d, seriesKeys, categoryField, numberText) == Undefined
  {
  }

  /** A node's title without a data row is the datum's key. */
  lemma NodeKeyTitle(d: Datum, seriesKeys: seq<string>, categoryField: string, numberText: real -> string)
    requires !Truthy(d.source) && d.datum.None?
    ensures FormatTitle(d, seriesKeys, categoryField, numberText) == d.key
  {
  }

  /** Concretely: -1 and 1.5 are not indices of a two-key array, and
      neither is 2. */
  lemma OutOfRangeLinkTitle(numberText: real -> string)
    ensures FormatTitle(Datum(Num(-1.0), Num(1.0), None, Undefined), ["a", "b"], "c", numberText) == Str("undefined => b")
    ensures FormatTitle(Datum(Num(1.5), Num(2.0), None, Undefined), ["a", "b"], "c", numberText) == Str("undefined => undefined")
    ensures FormatTitle(Datum(Num(1.0), Str("x"), None, Undefined), ["a", "b"], "c", numberText) == Str("b => undefined")
  {
    assert (-1.0).Floor == -1;
    assert (1.5).Floor == 1;
    assert (1.0).Floor == 1;
    assert (2.0).Floor == 2;
  }

  // ---------------------------------------------------------------------
  // Patterns

  datatype ActiveType = Mark | Dimension | Group

  /** The callbacks a line refers to. */
  datatype Callback = NoCallback | TitleFormatter | DimensionData | DatumValue | MarkKey | MarkValue

  /** A tooltip line: `shapeCallbacks` says whether the shape type, colour
      and stroke callbacks are set. */
  datatype Line = Line(
    seriesId: Option<int>, key: Callback, value: Callback, hasShape: bool,
    shapeCallbacks: bool, shapeHollow: Option<bool>)

  datatype Pattern = Pattern(visible: bool, activeType: ActiveType, title: Line, content: seq<Line>)

  /** One entry of a dimension's data: the series it belongs to. */
  datatype DimensionDatum = DimensionDatum(seriesId: int)

  datatype DimensionInfo = DimensionInfo(data: seq<DimensionDatum>)

  /** The content line of a series entry. */
  function SeriesLine(seriesId: int): Line {
    Line(Some(seriesId), MarkKey, MarkValue, true, true, Some(false))
  }

  /** The pattern for a hovered mark. */
  function MarkPattern(): (p: Pattern)
    ensures p.visible && p.activeType == Mark
    ensures !p.title.hasShape && p.title.key == NoCallback && p.title.value == TitleFormatter
    ensures |p.content| == 1 && p.content[0].hasShape && p.content[0].shapeHollow == Some(false)
    ensures p.content[0].key == MarkKey && p.content[0].value == DatumValue && p.content[0].shapeCallbacks
  {
    Pattern(true, Mark, Line(None, NoCallback, TitleFormatter, false, false, None),
            [Line(None, MarkKey, DatumValue, true, true, Some(false))])
  }

  /** The series ids of all dimension data, in iteration order. */
  function SeriesIds(infos: seq<DimensionInfo>): seq<int> {
    if |infos| == 0 then []
    else SeriesIds(infos[..|infos| - 1]) + seq(|infos[|infos| - 1].data|, k requires 0 <= k < |infos[|infos| - 1].data| => infos[|infos| - 1].data[k].seriesId)
  }

  /** Total number of dimension data entries. */
  function EntryCount(infos: seq<DimensionInfo>): nat {
    if |infos| == 0 then 0 else EntryCount(infos[..|infos| - 1]) + |infos[|infos| - 1].data|
  }

  /** The ids of earlier dimensions come first: iteration order is kept. */
  lemma {:induction false} SeriesIdsAppend(a: seq<DimensionInfo>, b: seq<DimensionInfo>)
    ensures SeriesIds(a + b) == SeriesIds(a) + SeriesIds(b)
    decreases |b|
  {
    if |b| > 0 {
      var n := |b| - 1;
      assert (a + b)[..|a + b| - 1] == a + b[..n];
      assert (a + b)[|a + b| - 1] == b[n];
      SeriesIdsAppend(a, b[..n]);
      var block := seq(|b[n].data|, k requires 0 <= k < |b[n].data| => b[n].data[k].seriesId);
      assert SeriesIds(b) == SeriesIds(b[..n]) + block;
      assert SeriesIds(a + b) == SeriesIds(a + b[..n]) + block;
      assert SeriesIds(a) + SeriesIds(b[..n]) + block == SeriesIds(a) + (SeriesIds(b[..n]) + block);
    } else {
      assert a + b == a;
    }
  }

  /** One id per entry. */
  lemma {:induction false} SeriesIdsCount(infos: seq<DimensionInfo>)
    ensures |SeriesIds(infos)| == EntryCount(infos)
    decreases |infos|
  {
    if |infos| > 0 {
      SeriesIdsCount(infos[..|infos| - 1]);
    }
  }

  /** The pattern of getDefaultTooltipPattern, or None for `null`. */
  function PatternOf(activeType: ActiveType, dimensionInfo: Option<seq<DimensionInfo>>): (r: Option<Pattern>)
    ensures r.None? <==> activeType == Group || (activeType == Dimension && dimensionInfo.None?)
    ensures r.Some? ==> r.value.visible && !r.value.title.hasShape
  {
    match activeType
    case Mark => Some(MarkPattern())
    case Dimension =>
      if dimensionInfo.Some? then
        var ids := SeriesIds(dimensionInfo.value);
        Some(Pattern(true, Dimension, Line(None, NoCallback, DimensionData, false, false, None),
                     seq(|ids|, k requires 0 <= k < |ids| => SeriesLine(ids[k]))))
      else None
    case Group => None
  }

  /** getDefaultTooltipPattern: the dimension content is pushed entry by
      entry through two nested loops. */
  method GetDefaultTooltipPattern(activeType: ActiveType, dimensionInfo: Option<seq<DimensionInfo>>) returns (r: Option<Pattern>)
    ensures r == PatternOf(activeType, dimensionInfo)
    ensures r.None? <==> activeType == Group || (activeType == Dimension && dimensionInfo.None?)
    ensures activeType == Dimension && dimensionInfo.Some? ==>
              && r.Some? && r.value.visible && !r.value.title.hasShape && r.value.title.value == DimensionData
              && |r.value.content| == EntryCount(dimensionInfo.value)
              && (forall k :: 0 <= k < |r.value.content| ==>
                    r.value.content[k].hasShape && r.value.content[k].shapeHollow == Some(false)
                    && r.value.content[k].seriesId == Some(SeriesIds(dimensionInfo.value)[k]))
  {
    match activeType {
      case Mark =>
        return Some(MarkPattern());
      case Dimension =>
        if dimensionInfo.Some? {
          var infos := dimensionInfo.value;
          var content: seq<Line> := [];
          var i := 0;
          while i < |infos|
            invariant 0 <= i <= |infos|
            invariant |content| == |SeriesIds(infos[..i])|
            invariant forall k :: 0 <= k < |content| ==> content[k] == SeriesLine(SeriesIds(infos[..i])[k])
          {
            var data := infos[i].data;
            var j := 0;
            ghost var before := content;
            while j < |data|
              invariant 0 <= j <= |data|
              invariant |content| == |before| + j
              invariant content[..|before|] == before
              invariant forall k :: 0 <= k < j ==> content[|before| + k] == SeriesLine(data[k].seriesId)
            {
              content := content + [SeriesLine(data[j].seriesId)];
              j := j + 1;
            }
            assert infos[..i + 1][..i] == infos[..i];
            var ids := SeriesIds(infos[..i + 1]);
            assert ids == SeriesIds(infos[..i]) + seq(|data|, k requires 0 <= k < |data| => data[k].seriesId);
            forall k | 0 <= k < |content|
              ensures content[k] == SeriesLine(ids[k])
            {
              if k < |before| {
                assert content[k] == before[k];
              }
            }
            i := i + 1;
          }
          assert infos[..|infos|] == infos;
          SeriesIdsCount(infos);
          var title := Line(None, NoCallback, DimensionData, false, false, None);
          var ids := SeriesIds(infos);
          assert content == seq(|ids|, k requires 0 <= k < |ids| => SeriesLine(ids[k]));
          r := Some(Pattern(true, Dimension, title, content));
          return r;
        }
        return None;
      case Group =>
        return None;
    }
  }
}
