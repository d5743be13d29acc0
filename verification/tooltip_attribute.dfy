/** The tooltip box-layout engine: from a resolved tooltip (an optional title
    and rows of key, value and shape) and the tooltip's style tokens to a
    panel size and one box per row.

    Text measurement and style merging belong to other modules; they reach
    this one as the two functions of an `Env`. */
module TooltipAttribute {
  import opened Wrappers

  // ---------------------------------------------------------------------
  // Numbers

  function Max(a: real, b: real): real { if a >= b then a else b }

  function Min(a: real, b: real): real { if a <= b then a else b }

  /** `Math.ceil`. */
  function Ceil(x: real): (r: int)
    ensures x <= r as real < x + 1.0
  {
    -((-x).Floor)
  }

  // ---------------------------------------------------------------------
  // Text styles

  /** What a tooltip cell shows: a string or a number. */
  datatype Tip = Str(s: string) | Num(n: real)

  /** JavaScript truthiness of an optional cell (the empty string and 0 are falsy). */
  predicate Truthy(t: Option<Tip>) {
    match t
    case None => false
    case Some(Str(s)) => s != ""
    case Some(Num(n)) => n != 0.0
  }

  /** The style tokens of one text block, as a theme or a row writes them. */
  datatype TextTheme = TextTheme(
    fill: Option<string>, fontColor: Option<string>,
    textAlign: Option<string>, textBaseline: Option<string>,
    fontFamily: Option<string>, fontSize: Option<real>, fontWeight: Option<string>,
    lineHeight: Option<real>, spacing: Option<real>, multiLine: Option<bool>,
    maxWidth: Option<real>, wordBreak: Option<string>, autoWidth: Option<bool>)

  const NoTextTheme := TextTheme(None, None, None, None, None, None, None, None, None, None, None, None, None)

  /** The resolved style of one text block. */
  datatype TextStyle = TextStyle(
    fill: Option<string>, textAlign: Option<string>, textBaseline: Option<string>,
    fontFamily: Option<string>, fontSize: Option<real>, fontWeight: Option<string>,
    lineHeight: Option<real>, spacing: Option<real>, multiLine: Option<bool>,
    maxWidth: Option<real>, wordBreak: Option<string>, autoWidth: Option<bool>)

  /** The empty style `{}`. */
  const NoTextStyle := TextStyle(None, None, None, None, None, None, None, None, None, None, None, None)

  /** DEFAULT_TEXT_ATTRIBUTES: the theme token's font family, spacing 10, 'break-word'. */
  function DefaultTextAttributes(tokenFontFamily: string): TextStyle {
    NoTextStyle.(fontFamily := Some(tokenFontFamily), spacing := Some(10.0), wordBreak := Some("break-word"))
  }

  /** getTextAttributes as written: the object literal spreads the defaults
      first and then writes every key again, also those the style leaves
      undefined, so no default survives. */
  function GetTextAttributesAsWritten(style: TextTheme, themeFontFamily: Option<string>, defaults: TextStyle): TextStyle {
    TextStyle(
      Or(style.fill, style.fontColor), style.textAlign, style.textBaseline,
      Or(style.fontFamily, themeFontFamily), style.fontSize, style.fontWeight,
      style.lineHeight, style.spacing, style.multiLine,
      style.maxWidth, style.wordBreak, style.autoWidth)
  }

  /** The default spacing of 10 is lost: a key or value theme without a
      spacing gives a style without one, and the content width computed from
      it is NaN. */
  lemma DefaultSpacingLostAsWritten(tokenFontFamily: string)
    ensures DefaultTextAttributes(tokenFontFamily).spacing == Some(10.0)
    ensures GetTextAttributesAsWritten(NoTextTheme, None, DefaultTextAttributes(tokenFontFamily)).spacing == None
  {
  }

  /** getTextAttributes with the defaults applied where the style leaves a
      key undefined. */
  function GetTextAttributes(style: TextTheme, themeFontFamily: Option<string>, defaults: TextStyle): (r: TextStyle)
    ensures r.spacing.None? <==> style.spacing.None? && defaults.spacing.None?
    ensures defaults == NoTextStyle ==> r == GetTextAttributesAsWritten(style, themeFontFamily, defaults)
  {
    TextStyle(
      Or(style.fill, style.fontColor), Or(style.textAlign, defaults.textAlign), Or(style.textBaseline, defaults.textBaseline),
      Or(Or(style.fontFamily, themeFontFamily), defaults.fontFamily), Or(style.fontSize, defaults.fontSize),
      Or(style.fontWeight, defaults.fontWeight), Or(style.lineHeight, defaults.lineHeight),
      Or(style.spacing, defaults.spacing), Or(style.multiLine, defaults.multiLine),
      Or(style.maxWidth, defaults.maxWidth), Or(style.wordBreak, defaults.wordBreak),
      Or(style.autoWidth, defaults.autoWidth))
  }

  /** `fill` falls back to `fontColor`, the font family to the global
      theme's and then to the defaults'; spacing, the width keys and
      wordBreak fall back to the defaults', and a key the style sets is kept. */
  lemma GetTextAttributesFallbacks(style: TextTheme, themeFontFamily: Option<string>, defaults: TextStyle)
    ensures var r := GetTextAttributes(style, themeFontFamily, defaults);
            && r.fill == Or(style.fill, style.fontColor)
            && (style.fontFamily.Some? ==> r.fontFamily == style.fontFamily)
            && (style.fontFamily.None? && themeFontFamily.Some? ==> r.fontFamily == themeFontFamily)
            && (style.fontFamily.None? && themeFontFamily.None? ==> r.fontFamily == defaults.fontFamily)
            && (style.spacing.Some? ==> r.spacing == style.spacing)
            && (style.spacing.None? ==> r.spacing == defaults.spacing)
            && (style.autoWidth.Some? ==> r.autoWidth == style.autoWidth)
            && (style.autoWidth.None? ==> r.autoWidth == defaults.autoWidth)
            && (style.multiLine.Some? ==> r.multiLine == style.multiLine)
            && (style.multiLine.None? ==> r.multiLine == defaults.multiLine)
            && (style.maxWidth.Some? ==> r.maxWidth == style.maxWidth)
            && (style.maxWidth.None? ==> r.maxWidth == defaults.maxWidth)
            && (style.wordBreak.Some? ==> r.wordBreak == style.wordBreak)
            && (style.wordBreak.None? ==> r.wordBreak == defaults.wordBreak)
            // with no defaults (as every row style is read) nothing differs from the code as written
            && (defaults == NoTextStyle ==> r == GetTextAttributesAsWritten(style, themeFontFamily, defaults))
  {
  }

  /** Reading a resolved style back as a theme changes nothing: the
      attributes are stable under repeated resolution. */
  lemma GetTextAttributesIdempotent(style: TextTheme, themeFontFamily: Option<string>, defaults: TextStyle)
    ensures var r := GetTextAttributes(style, themeFontFamily, defaults);
            GetTextAttributes(AsTheme(r), themeFontFamily, defaults) == r
  {
  }

  function AsTheme(s: TextStyle): TextTheme {
    TextTheme(s.fill, None, s.textAlign, s.textBaseline, s.fontFamily, s.fontSize, s.fontWeight,
              s.lineHeight, s.spacing, s.multiLine, s.maxWidth, s.wordBreak, s.autoWidth)
  }

  // ---------------------------------------------------------------------
  // Panel

  datatype Padding = Padding(top: real, right: real, bottom: real, left: real)

  datatype Border = Border(color: Option<string>, width: Option<real>, radius: Option<real>)

  datatype Shadow = Shadow(color: Option<string>, blur: Option<real>, x: Option<real>, y: Option<real>, spread: Option<real>)

  /** The panel's theme; `padding` is already normalised to four sides. */
  datatype PanelTheme = PanelTheme(
    backgroundColor: Option<string>, border: Option<Border>, shadow: Option<Shadow>, padding: Padding)

  datatype PanelAttrs = PanelAttrs(
    lineWidth: real, shadow: bool,
    stroke: Option<string>, fill: Option<string>,
    shadowColor: Option<string>, shadowBlur: Option<real>,
    shadowOffsetX: Option<real>, shadowOffsetY: Option<real>, shadowSpread: Option<real>,
    cornerRadius: Option<seq<real>>)

  predicate TruthyString(s: Option<string>) { s.Some? && s.value != "" }

  /** getPanelAttributes: the border width (0 when unset) and a shadow flag
      always; a stroke only for a non-empty border colour, a fill only for a
      non-empty background; the shadow's parameters only with a shadow; four
      equal corner radii only when the border gives a radius. */
  function GetPanelAttributes(panel: PanelTheme): (r: PanelAttrs)
    ensures r.lineWidth == (if panel.border.Some? then panel.border.value.width.GetOr(0.0) else 0.0)
    ensures r.shadow <==> panel.shadow.Some?
    ensures r.stroke.Some? <==> panel.border.Some? && TruthyString(panel.border.value.color)
    ensures r.stroke.Some? ==> r.stroke == panel.border.value.color
    ensures r.fill.Some? <==> TruthyString(panel.backgroundColor)
    ensures r.fill.Some? ==> r.fill == panel.backgroundColor
    ensures panel.shadow.None? ==> r.shadowColor.None? && r.shadowBlur.None? && r.shadowOffsetX.None?
                                   && r.shadowOffsetY.None? && r.shadowSpread.None?
    ensures panel.shadow.Some? ==> r.shadowColor == panel.shadow.value.color && r.shadowBlur == panel.shadow.value.blur
    ensures panel.shadow.Some? ==> r.shadowOffsetX == panel.shadow.value.x && r.shadowOffsetY == panel.shadow.value.y
                                   && r.shadowSpread == panel.shadow.value.spread
    ensures r.cornerRadius.Some? <==> panel.border.Some? && panel.border.value.radius.Some?
    ensures r.cornerRadius.Some? ==>
              |r.cornerRadius.value| == 4 &&
              forall k :: 0 <= k < 4 ==> r.cornerRadius.value[k] == panel.border.value.radius.value
  {
    var lineWidth := if panel.border.Some? then panel.border.value.width.GetOr(0.0) else 0.0;
    var stroke := if panel.border.Some? && TruthyString(panel.border.value.color) then panel.border.value.color else None;
    var fill := if TruthyString(panel.backgroundColor) then panel.backgroundColor else None;
    var radius := if panel.border.Some? then panel.border.value.radius else None;
    var corners := if radius.Some? then Some([radius.value, radius.value, radius.value, radius.value]) else None;
    match panel.shadow
    case None => PanelAttrs(lineWidth, false, stroke, fill, None, None, None, None, None, corners)
    case Some(sh) => PanelAttrs(lineWidth, true, stroke, fill, sh.color, sh.blur, sh.x, sh.y, sh.spread, corners)
  }

  // ---------------------------------------------------------------------
  // Input: the resolved tooltip and the style tokens

  datatype Row = Row(
    key: Option<Tip>, value: Option<Tip>,
    hasShape: bool, shapeType: Option<string>, shapeFill: Option<string>, shapeStroke: Option<string>,
    shapeLineWidth: Option<real>, shapeSize: Option<real>, shapeHollow: bool,
    shapeColor: Option<string>,  // deprecated spelling of shapeFill
    isKeyAdaptive: bool, spaceRow: Option<real>,
    keyStyle: TextTheme, valueStyle: TextTheme,
    visible: Option<bool>)

  datatype Title = Title(visible: Option<bool>, value: Option<Tip>, valueStyle: TextTheme, spaceRow: Option<real>)

  /** A tooltip without a title reads as this one (`title = {}`). */
  const NoTitle := Title(None, None, NoTextTheme, None)

  datatype TooltipActual = TooltipActual(title: Title, content: seq<Row>)

  datatype ShapeTheme = ShapeTheme(size: Option<real>, spacing: Option<real>)

  datatype TooltipStyle = TooltipStyle(
    panel: PanelTheme, titleLabel: TextTheme, shape: ShapeTheme,
    keyLabel: TextTheme, valueLabel: TextTheme,
    spaceRow: real, maxContentHeight: Option<real>)

  datatype TooltipSpec = TooltipSpec(style: TooltipStyle, enterable: Option<bool>, transitionDuration: Option<real>)

  datatype Measured = Measured(width: real, height: real, text: seq<string>)

  /** What this module calls and does not define: text measurement, the
      merging of style layers (later layers win), the theme token's font
      family and the global theme's font family. */
  datatype Env = Env(
    measure: (Tip, TextStyle) -> Measured,
    merge: (TextStyle, TextStyle) -> TextStyle,
    tokenFontFamily: string,
    themeFontFamily: Option<string>)

  datatype ShapeStyle = ShapeStyle(fill: bool, size: real, spacing: real)

  datatype Styles = Styles(title: TextStyle, key: TextStyle, value: TextStyle, shape: ShapeStyle)

  /** The column-wide styles: title, key and value labels resolved over the
      defaults, the shape size defaulting to 8 and its spacing to 6. */
  function ResolveStyles(style: TooltipStyle, env: Env): (s: Styles)
    ensures s.key.spacing.Some? && s.value.spacing.Some?
    ensures style.keyLabel.spacing.None? ==> s.key.spacing == Some(10.0)
    ensures style.valueLabel.spacing.None? ==> s.value.spacing == Some(10.0)
    ensures s.shape.size == style.shape.size.GetOr(8.0) && s.shape.spacing == style.shape.spacing.GetOr(6.0)
  {
    var defaults := DefaultTextAttributes(env.tokenFontFamily);
    Styles(
      GetTextAttributes(style.titleLabel, env.themeFontFamily, defaults),
      GetTextAttributes(style.keyLabel, env.themeFontFamily, defaults),
      GetTextAttributes(style.valueLabel, env.themeFontFamily, defaults),
      ShapeStyle(true, style.shape.size.GetOr(8.0), style.shape.spacing.GetOr(6.0)))
  }

  // ---------------------------------------------------------------------
  // Rows

  datatype TextBox = TextBox(width: real, height: real, style: TextStyle, text: seq<string>)

  datatype Symbol = Symbol(visible: bool, symbolType: string, fill: Option<string>, stroke: Option<string>, lineWidth: Option<real>)

  const HiddenSymbol := Symbol(false, "", None, None, None)

  datatype RowAttrs = RowAttrs(height: real, spaceRow: real, key: Option<TextBox>, value: Option<TextBox>, shape: Symbol)

  /** A row is laid out when its key or its value is truthy and it is not hidden. */
  predicate Keep(row: Row) {
    (Truthy(row.key) || Truthy(row.value)) && row.visible != Some(false)
  }

  /** `content.filter(...)`: the rows that are laid out, in their order. */
  function VisibleRows(rows: seq<Row>): (r: seq<Row>)
    ensures |r| <= |rows|
    ensures forall x :: x in r ==> x in rows && Keep(x)
  {
    if |rows| == 0 then []
    else VisibleRows(rows[..|rows| - 1]) + (if Keep(rows[|rows| - 1]) then [rows[|rows| - 1]] else [])
  }

  /** Filtering distributes over concatenation, so it keeps the rows' order. */
  lemma {:induction false} VisibleRowsAppend(a: seq<Row>, b: seq<Row>)
    ensures VisibleRows(a + b) == VisibleRows(a) + VisibleRows(b)
    decreases |b|
  {
    if |b| == 0 {
      assert a + b == a;
    } else {
      var b' := b[..|b| - 1];
      assert (a + b)[..|a + b| - 1] == a + b';
      VisibleRowsAppend(a, b');
    }
  }

  /** Every kept row survives the filter. */
  lemma {:induction false} VisibleRowsComplete(rows: seq<Row>, x: Row)
    requires x in rows && Keep(x)
    ensures x in VisibleRows(rows)
    decreases |rows|
  {
    var n := |rows|;
    if rows[n - 1] != x {
      assert rows == rows[..n - 1] + [rows[n - 1]];
      VisibleRowsComplete(rows[..n - 1], x);
    }
  }

  /** The row-wide context: column styles, default shape size, common spaceRow. */
  datatype RowContext = RowContext(env: Env, keyStyle: TextStyle, valueStyle: TextStyle, shapeSize: real, spaceRow: real)

  function RowContextOf(spec: TooltipSpec, env: Env): RowContext {
    var s := ResolveStyles(spec.style, env);
    RowContext(env, s.key, s.value, s.shape.size, spec.style.spaceRow)
  }

  /** One key or value cell: the row's own style merged over the column's,
      then measured. */
  function MeasureCell(env: Env, t: Tip, column: TextStyle, own: TextTheme): TextBox {
    var style := env.merge(column, GetTextAttributes(own, None, NoTextStyle));
    var m := env.measure(t, style);
    TextBox(m.width, m.height, style, m.text)
  }

  function RowSymbol(row: Row): (sym: Symbol)
    ensures sym.visible && sym.stroke == Or(row.shapeStroke, Or(row.shapeFill, row.shapeColor))
    ensures row.shapeHollow ==> sym.fill == None
    ensures !row.shapeHollow ==> sym.fill == Or(row.shapeFill, row.shapeColor)
    ensures sym.symbolType == row.shapeType.GetOr("") && sym.lineWidth == row.shapeLineWidth
  {
    var adaptiveFill := Or(row.shapeFill, row.shapeColor);
    Symbol(true, row.shapeType.GetOr(""),
           if row.shapeHollow then None else adaptiveFill,
           Or(row.shapeStroke, adaptiveFill),
           row.shapeLineWidth)
  }

  /** A row's height: the tallest of its key, its value and its shape, never below 0. */
  function RowHeight(key: Option<TextBox>, value: Option<TextBox>, shape: Option<real>): (h: real)
    ensures 0.0 <= h
    ensures key.Some? ==> key.value.height <= h
    ensures value.Some? ==> value.value.height <= h
    ensures shape.Some? ==> shape.value <= h
    ensures || h == 0.0
            || (key.Some? && h == key.value.height)
            || (value.Some? && h == value.value.height)
            || (shape.Some? && h == shape.value)
  {
    var h0 := if key.Some? then Max(0.0, key.value.height) else 0.0;
    var h1 := if value.Some? then Max(h0, value.value.height) else h0;
    if shape.Some? then Max(shape.value, h1) else h1
  }

  /** A measured row with what it adds to each of the four width pools. */
  datatype RowMeasure = RowMeasure(
    attrs: RowAttrs, fixedKey: Option<real>, adaptiveKey: Option<real>, value: Option<real>, shape: Option<real>)

  /** The body of the map over the filtered rows: a row's box, and the
      widths it pushes: a key into the fixed or the adaptive pool, a value,
      a shape's size (the row's own, else the default). */
  function MeasureRow(row: Row, c: RowContext): (m: RowMeasure)
    ensures m.attrs.key.Some? == row.key.Some? && m.attrs.value.Some? == row.value.Some?
    ensures m.attrs.spaceRow == row.spaceRow.GetOr(c.spaceRow)
    ensures m.fixedKey == (if row.key.Some? && !row.isKeyAdaptive then Some(m.attrs.key.value.width) else None)
    ensures m.adaptiveKey == (if row.key.Some? && row.isKeyAdaptive then Some(m.attrs.key.value.width) else None)
    ensures m.value == (if row.value.Some? then Some(m.attrs.value.value.width) else None)
    ensures m.shape == (if row.hasShape then Some(row.shapeSize.GetOr(c.shapeSize)) else None)
  {
    var key := if row.key.Some? then Some(MeasureCell(c.env, row.key.value, c.keyStyle, row.keyStyle)) else None;
    var value := if row.value.Some? then Some(MeasureCell(c.env, row.value.value, c.valueStyle, row.valueStyle)) else None;
    var shapeWidth := if row.hasShape then Some(row.shapeSize.GetOr(c.shapeSize)) else None;
    var symbol := if row.hasShape then RowSymbol(row) else HiddenSymbol;
    RowMeasure(
      RowAttrs(RowHeight(key, value, shapeWidth), row.spaceRow.GetOr(c.spaceRow), key, value, symbol),
      if key.Some? && !row.isKeyAdaptive then Some(key.value.width) else None,
      if key.Some? && row.isKeyAdaptive then Some(key.value.width) else None,
      if value.Some? then Some(value.value.width) else None,
      shapeWidth)
  }

  /** A row's box is as tall as the tallest of its key, its value and its
      shape (never below 0), and no taller. A shape is drawn exactly when
      the row has one; a hollow shape is only stroked, and the stroke falls
      back to the fill colour. */
  lemma RowBox(row: Row, c: RowContext)
    ensures var m := MeasureRow(row, c);
            && m.attrs.shape.visible == row.hasShape
            && (row.hasShape ==> m.attrs.shape.stroke == Or(row.shapeStroke, Or(row.shapeFill, row.shapeColor)))
            && (row.hasShape && row.shapeHollow ==> m.attrs.shape.fill == None)
            && (row.hasShape && !row.shapeHollow ==> m.attrs.shape.fill == Or(row.shapeFill, row.shapeColor))
            && (row.hasShape ==> m.attrs.shape.symbolType == row.shapeType.GetOr("") && m.attrs.shape.lineWidth == row.shapeLineWidth)
            && 0.0 <= m.attrs.height
            && (m.attrs.key.Some? ==> m.attrs.key.value.height <= m.attrs.height)
            && (m.attrs.value.Some? ==> m.attrs.value.value.height <= m.attrs.height)
            && (m.shape.Some? ==> m.shape.value <= m.attrs.height)
            && (|| m.attrs.height == 0.0
                || (m.attrs.key.Some? && m.attrs.height == m.attrs.key.value.height)
                || (m.attrs.value.Some? && m.attrs.height == m.attrs.value.value.height)
                || (m.shape.Some? && m.attrs.height == m.shape.value))
  {
  }

  function MeasureAll(rows: seq<Row>, c: RowContext): (ms: seq<RowMeasure>)
    ensures |ms| == |rows|
    ensures forall j :: 0 <= j < |rows| ==> ms[j] == MeasureRow(rows[j], c)
  {
    seq(|rows|, j requires 0 <= j < |rows| => MeasureRow(rows[j], c))
  }

  function Attrs(ms: seq<RowMeasure>): (items: seq<RowAttrs>)
    ensures |items| == |ms|
    ensures forall j :: 0 <= j < |ms| ==> items[j] == ms[j].attrs
  {
    seq(|ms|, j requires 0 <= j < |ms| => ms[j].attrs)
  }

  // ---------------------------------------------------------------------
  // Column widths

  datatype Column = FixedKey | AdaptiveKey | ValueColumn | ShapeColumn

  function Contribution(m: RowMeasure, col: Column): Option<real> {
    match col
    case FixedKey => m.fixedKey
    case AdaptiveKey => m.adaptiveKey
    case ValueColumn => m.value
    case ShapeColumn => m.shape
  }

  /** The array a column's widths are pushed into, in row order. */
  function Pool(ms: seq<RowMeasure>, col: Column): seq<real> {
    if |ms| == 0 then []
    else
      var last := Contribution(ms[|ms| - 1], col);
      Pool(ms[..|ms| - 1], col) + (if last.Some? then [last.value] else [])
  }

  /** A width is in a pool exactly when some row contributed it. */
  lemma {:induction false} PoolMembership(ms: seq<RowMeasure>, col: Column, w: real)
    ensures w in Pool(ms, col) <==> exists j :: 0 <= j < |ms| && Contribution(ms[j], col) == Some(w)
    decreases |ms|
  {
    if |ms| > 0 {
      var n := |ms|;
      PoolMembership(ms[..n - 1], col, w);
      if exists j :: 0 <= j < n && Contribution(ms[j], col) == Some(w) {
        var j :| 0 <= j < n && Contribution(ms[j], col) == Some(w);
        if j < n - 1 {
          assert ms[..n - 1][j] == ms[j];
        }
      }
      var init := ms[..n - 1];
      if exists j :: 0 <= j < n - 1 && Contribution(init[j], col) == Some(w) {
        var j :| 0 <= j < n - 1 && Contribution(init[j], col) == Some(w);
        assert ms[j] == init[j];
      }
    }
  }

  /** A pool is empty exactly when no row contributes to it. */
  lemma PoolEmpty(ms: seq<RowMeasure>, col: Column)
    ensures |Pool(ms, col)| == 0 <==> forall j :: 0 <= j < |ms| ==> Contribution(ms[j], col).None?
  {
    if |Pool(ms, col)| > 0 {
      PoolMembership(ms, col, Pool(ms, col)[0]);
    } else {
      forall j | 0 <= j < |ms| ensures Contribution(ms[j], col).None? {
        if Contribution(ms[j], col).Some? {
          PoolMembership(ms, col, Contribution(ms[j], col).value);
        }
      }
    }
  }

  /** maxInArray. */
  function MaxOf(s: seq<real>): (r: real)
    requires |s| > 0
    ensures r in s
    ensures forall x :: x in s ==> x <= r
  {
    if |s| == 1 then s[0]
    else
      var init := s[..|s| - 1];
      assert s == init + [s[|s| - 1]];
      Max(MaxOf(init), s[|s| - 1])
  }

  /** `xs.length ? maxInArray(xs) : 0`. */
  function MaxOrZero(s: seq<real>): real {
    if |s| == 0 then 0.0 else MaxOf(s)
  }

  /** The column widths after the first pass; the shape column includes the shape spacing. */
  datatype Columns = Columns(key: real, adaptiveKey: real, value: real, shape: real, hasShape: bool)

  const NoColumns := Columns(0.0, 0.0, 0.0, 0.0, false)

  function ColumnsOf(ms: seq<RowMeasure>, shapeSpacing: real): Columns {
    var shapes := Pool(ms, ShapeColumn);
    Columns(
      MaxOrZero(Pool(ms, FixedKey)),
      MaxOrZero(Pool(ms, AdaptiveKey)),
      MaxOrZero(Pool(ms, ValueColumn)),
      if |shapes| > 0 then MaxOf(shapes) + shapeSpacing else 0.0,
      |shapes| > 0)
  }

  /** The width a column takes: the widest contribution, or 0 when nothing contributes. */
  lemma ColumnWidth(ms: seq<RowMeasure>, col: Column)
    ensures forall j :: 0 <= j < |ms| && Contribution(ms[j], col).Some? ==>
              Contribution(ms[j], col).value <= MaxOrZero(Pool(ms, col))
    ensures || ((forall j :: 0 <= j < |ms| ==> Contribution(ms[j], col).None?) && MaxOrZero(Pool(ms, col)) == 0.0)
            || (exists j :: 0 <= j < |ms| && Contribution(ms[j], col) == Some(MaxOrZero(Pool(ms, col))))
  {
    PoolEmpty(ms, col);
    forall j | 0 <= j < |ms| && Contribution(ms[j], col).Some?
      ensures Contribution(ms[j], col).value <= MaxOrZero(Pool(ms, col))
    {
      PoolMembership(ms, col, Contribution(ms[j], col).value);
    }
    if |Pool(ms, col)| > 0 {
      PoolMembership(ms, col, MaxOf(Pool(ms, col)));
    }
  }

  /** The content width: the wider of the aligned row (shape, key, key
      spacing, value, value spacing) and the adaptive-key row (shape and
      adaptive key), and never below 0. */
  function ContentWidth(c: Columns, keySpacing: real, valueSpacing: real): (w: real)
    ensures c.shape + c.key + keySpacing + c.value + valueSpacing <= w
    ensures c.shape + c.adaptiveKey <= w
    ensures 0.0 <= w
    ensures || w == c.shape + c.key + keySpacing + c.value + valueSpacing
            || w == c.shape + c.adaptiveKey
            || w == 0.0
  {
    Max(Max(c.shape + c.key + keySpacing + c.value + valueSpacing, c.shape + c.adaptiveKey), 0.0)
  }

  // ---------------------------------------------------------------------
  // Heights

  function SumHeights(items: seq<RowAttrs>): real {
    if |items| == 0 then 0.0 else SumHeights(items[..|items| - 1]) + items[|items| - 1].height
  }

  function SumGaps(items: seq<RowAttrs>): real {
    if |items| == 0 then 0.0 else SumGaps(items[..|items| - 1]) + items[|items| - 1].spaceRow
  }

  /** Every row's height, plus the row's spaceRow below every row but the last. */
  function ContentHeight(items: seq<RowAttrs>): real {
    if |items| == 0 then 0.0 else SumHeights(items) + SumGaps(items[..|items| - 1])
  }

  /** Two rows take their two heights and the first row's gap. */
  lemma ContentHeightOfTwo(a: RowAttrs, b: RowAttrs)
    ensures ContentHeight([a, b]) == a.height + a.spaceRow + b.height
  {
    assert [a, b][..1] == [a];
    assert [a][..0] == [];
    assert SumHeights([a]) == a.height;
    assert SumHeights([a, b]) == a.height + b.height;
    assert SumGaps([a]) == a.spaceRow;
  }

  /** `Math.min(contentHeight, maxContentHeight ?? Infinity)`. */
  function CappedHeight(contentHeight: real, cap: Option<real>): (h: real)
    ensures h <= contentHeight
    ensures cap.Some? ==> h <= cap.value
    ensures h == contentHeight || (cap.Some? && h == cap.value)
  {
    match cap
    case None => contentHeight
    case Some(c) => Min(contentHeight, c)
  }

  // ---------------------------------------------------------------------
  // Content, first pass

  datatype ContentLayout = ContentLayout(
    rows: seq<Row>, measures: seq<RowMeasure>, columns: Columns, width: real, height: real)

  function LayoutContent(content: seq<Row>, spec: TooltipSpec, env: Env): (c: ContentLayout)
    ensures c.rows == VisibleRows(content)
    ensures c.measures == MeasureAll(c.rows, RowContextOf(spec, env))
  {
    MeasuredContent(VisibleRows(content), ResolveStyles(spec.style, env), RowContextOf(spec, env))
  }

  /** The first pass over rows that are already filtered. */
  function MeasuredContent(rows: seq<Row>, s: Styles, ctx: RowContext): (c: ContentLayout)
    requires s.key.spacing.Some? && s.value.spacing.Some?
    ensures c.rows == rows && c.measures == MeasureAll(rows, ctx)
  {
    var ms := MeasureAll(rows, ctx);
    if |rows| == 0 then ContentLayout(rows, ms, NoColumns, 0.0, 0.0)
    else
      var cols := ColumnsOf(ms, s.shape.spacing);
      ContentLayout(rows, ms, cols, ContentWidth(cols, s.key.spacing.value, s.value.spacing.value), ContentHeight(Attrs(ms)))
  }

  // ---------------------------------------------------------------------
  // Title

  datatype TitleAttrs = TitleAttrs(visible: bool, spaceRow: real, value: Option<TextBox>, width: real, height: real)

  /** The title's box, and the style the width mode is read from (`{}` for a hidden title). */
  datatype TitleLayout = TitleLayout(attrs: TitleAttrs, style: TextStyle)

  /** Auto-width mode: autoWidth on and multi-line not switched off. */
  predicate AutoWidthMode(s: TextStyle) {
    s.autoWidth == Some(true) && s.multiLine != Some(false)
  }

  /** In auto-width mode the title wraps and its maximum width defaults to the
      content width rounded up; the mode itself is unchanged. */
  function AutoWidthTitleStyle(s: TextStyle, hasContent: bool, contentWidth: real): (t: TextStyle)
    ensures AutoWidthMode(t) == AutoWidthMode(s)
    ensures !AutoWidthMode(s) ==> t == s
    ensures AutoWidthMode(s) ==> t.multiLine == Some(true)
    ensures AutoWidthMode(s) && s.maxWidth.Some? ==> t.maxWidth == s.maxWidth
    ensures AutoWidthMode(s) && s.maxWidth.None? && hasContent ==> t.maxWidth == Some(Ceil(contentWidth) as real)
    ensures AutoWidthMode(s) && s.maxWidth.None? && !hasContent ==> t.maxWidth == None
  {
    if AutoWidthMode(s) then
      assert s.multiLine.GetOr(true) == true;
      s.(multiLine := Some(s.multiLine.GetOr(true)),
         maxWidth := if s.maxWidth.Some? then s.maxWidth else if hasContent then Some(Ceil(contentWidth) as real) else None)
    else s
  }

  function TitleStyleOf(title: Title, titleStyle: TextStyle, env: Env): TextStyle {
    env.merge(titleStyle, GetTextAttributes(title.valueStyle, None, NoTextStyle))
  }

  /** The title block: hidden titles take no room; in auto-width mode the
      reported width never exceeds the (possibly defaulted) maximum width. */
  function LayoutTitle(title: Title, titleStyle: TextStyle, commonSpaceRow: real,
                       hasContent: bool, contentWidth: real, env: Env): (t: TitleLayout)
    ensures t.attrs.visible == title.visible.GetOr(true)
    ensures t.attrs.spaceRow == title.spaceRow.GetOr(commonSpaceRow)
    ensures !t.attrs.visible ==> t.attrs == TitleAttrs(false, t.attrs.spaceRow, None, 0.0, 0.0) && t.style == NoTextStyle
    ensures t.attrs.visible ==> t.style == AutoWidthTitleStyle(TitleStyleOf(title, titleStyle, env), hasContent, contentWidth)
    ensures t.attrs.visible ==> t.attrs.value.Some? && t.attrs.value.value.width == t.attrs.width
                                && t.attrs.value.value.height == t.attrs.height && t.attrs.value.value.style == t.style
    ensures AutoWidthMode(t.style) && t.style.maxWidth.Some? ==> t.attrs.width <= t.style.maxWidth.value
  {
    var visible := title.visible.GetOr(true);
    var spaceRow := title.spaceRow.GetOr(commonSpaceRow);
    if !visible then TitleLayout(TitleAttrs(false, spaceRow, None, 0.0, 0.0), NoTextStyle)
    else
      var style := AutoWidthTitleStyle(TitleStyleOf(title, titleStyle, env), hasContent, contentWidth);
      var m := env.measure(title.value.GetOr(Str("")), style);
      var width := if AutoWidthMode(style) && style.maxWidth.Some? then Min(m.width, style.maxWidth.value) else m.width;
      TitleLayout(TitleAttrs(true, spaceRow, Some(TextBox(width, m.height, style, m.text)), width, m.height), style)
  }

  /** `titleHeightWithSpace`: the title's height, and its spaceRow only when there is content. */
  function TitleBlock(t: TitleAttrs, hasContent: bool): real {
    if t.visible then t.height + (if hasContent then t.spaceRow else 0.0) else 0.0
  }

  /** The panel's inner width: in auto-width mode the content width (the
      title's when the content width is 0), otherwise the wider of the two. */
  function InnerWidth(autoWidth: bool, contentWidth: real, titleWidth: real): (w: real)
    ensures autoWidth && contentWidth != 0.0 ==> w == contentWidth
    ensures autoWidth && contentWidth == 0.0 ==> w == titleWidth
    ensures !autoWidth ==> contentWidth <= w && titleWidth <= w && (w == contentWidth || w == titleWidth)
  {
    if autoWidth then (if contentWidth != 0.0 then contentWidth else titleWidth)
    else Max(titleWidth, contentWidth)
  }

  // ---------------------------------------------------------------------
  // Content, second pass

  /** A value cell re-widened in the second pass: autoWidth defaults to true. */
  predicate AutoValue(item: RowAttrs) {
    item.value.Some? && item.value.value.style.autoWidth.GetOr(true)
  }

  /** JavaScript falsiness of a maxWidth (unset or 0). */
  predicate Unset(w: Option<real>) { w.None? || w.value == 0.0 }

  /** The width left for the value column once shape, key and both spacings are taken off. */
  function FillWidth(panelWidth: real, pad: Padding, c: Columns, s: Styles): real
    requires s.key.spacing.Some? && s.value.spacing.Some?
  {
    panelWidth - pad.left - pad.right - c.shape - c.key - s.key.spacing.value - s.value.spacing.value
  }

  /** An auto-width value cell takes the fill width, and a maximum width of
      that rounded up when it had none; every other row is left as it was. */
  function WidenRow(item: RowAttrs, fill: real): (r: RowAttrs)
    ensures r.height == item.height && r.spaceRow == item.spaceRow && r.key == item.key && r.shape == item.shape
    ensures r.value.Some? == item.value.Some?
    ensures AutoValue(item) ==> r.value.value.width == fill && r.value.value.height == item.value.value.height
    ensures AutoValue(item) && Unset(item.value.value.style.maxWidth) ==> r.value.value.style.maxWidth == Some(Ceil(fill) as real)
    ensures AutoValue(item) && !Unset(item.value.value.style.maxWidth) ==> r.value.value.style == item.value.value.style
    ensures !AutoValue(item) ==> r == item
  {
    if AutoValue(item) then
      var v := item.value.value.(width := fill);
      var v' := if Unset(v.style.maxWidth) then v.(style := v.style.(maxWidth := Some(Ceil(v.width) as real))) else v;
      item.(value := Some(v'))
    else item
  }

  function Widen(items: seq<RowAttrs>, fill: real): (r: seq<RowAttrs>)
    ensures |r| == |items|
    ensures forall j :: 0 <= j < |items| ==> r[j] == WidenRow(items[j], fill)
  {
    seq(|items|, j requires 0 <= j < |items| => WidenRow(items[j], fill))
  }

  /** `attributes.valueWidth` after the second pass: the first-pass width,
      raised to the fill width by every auto-width value. */
  function WidenedValueWidth(v: real, items: seq<RowAttrs>, fill: real): real {
    if |items| == 0 then v
    else
      var w := WidenedValueWidth(v, items[..|items| - 1], fill);
      if AutoValue(items[|items| - 1]) then Max(w, fill) else w
  }

  /** The value column is the first-pass width when no row is auto-width, and
      the larger of it and the fill width otherwise; it never shrinks. */
  lemma {:induction false} WidenedValueWidthIs(v: real, items: seq<RowAttrs>, fill: real)
    ensures v <= WidenedValueWidth(v, items, fill)
    ensures (exists j :: 0 <= j < |items| && AutoValue(items[j])) ==> WidenedValueWidth(v, items, fill) == Max(v, fill)
    ensures (forall j :: 0 <= j < |items| ==> !AutoValue(items[j])) ==> WidenedValueWidth(v, items, fill) == v
    decreases |items|
  {
    if |items| > 0 {
      var n := |items|;
      var init := items[..n - 1];
      WidenedValueWidthIs(v, init, fill);
      assert forall j :: 0 <= j < n - 1 ==> init[j] == items[j];
      if !AutoValue(items[n - 1]) && exists j :: 0 <= j < n && AutoValue(items[j]) {
        var j :| 0 <= j < n && AutoValue(items[j]);
        assert j < n - 1 && AutoValue(init[j]);
      }
    }
  }

  /** The second pass changes no row's height or gap. */
  lemma WidenKeepsHeight(items: seq<RowAttrs>, fill: real)
    ensures ContentHeight(Widen(items, fill)) == ContentHeight(items)
  {
    if |items| > 0 {
      var w := Widen(items, fill);
      SumsAgree(items, w);
      SumsAgree(items[..|items| - 1], w[..|w| - 1]);
    }
  }

  lemma {:induction false} SumsAgree(a: seq<RowAttrs>, b: seq<RowAttrs>)
    requires |a| == |b|
    requires forall j :: 0 <= j < |a| ==> a[j].height == b[j].height && a[j].spaceRow == b[j].spaceRow
    ensures SumHeights(a) == SumHeights(b) && SumGaps(a) == SumGaps(b)
    decreases |a|
  {
    if |a| > 0 {
      SumsAgree(a[..|a| - 1], b[..|b| - 1]);
    }
  }

  // ---------------------------------------------------------------------
  // The layout

  datatype ContentStyle = ContentStyle(shape: ShapeStyle, key: TextStyle, value: TextStyle, spaceRow: real)

  datatype TooltipAttributes = TooltipAttributes(
    panel: PanelAttrs, panelWidth: real, panelHeight: real, panelDomHeight: real,
    padding: Padding,
    title: TitleAttrs, content: seq<RowAttrs>,
    titleStyle: TextStyle, titleStyleSpaceRow: real, contentStyle: ContentStyle,
    hasContentShape: bool, keyWidth: real, valueWidth: real,
    maxContentHeight: Option<real>, enterable: Option<bool>, transitionDuration: Option<real>)

  /** The title block of the layout. */
  function TitleOf(actual: TooltipActual, spec: TooltipSpec, env: Env): TitleLayout {
    var c := LayoutContent(actual.content, spec, env);
    LayoutTitle(actual.title, ResolveStyles(spec.style, env).title, spec.style.spaceRow, |c.rows| > 0, c.width, env)
  }

  /** `panelWidth`: the padding and the inner width. */
  function PanelWidthFrom(pad: Padding, c: ContentLayout, t: TitleLayout): real {
    pad.left + pad.right + InnerWidth(AutoWidthMode(t.style), c.width, t.attrs.width)
  }

  /** The layout put together from the resolved styles, the first pass over
      the rows and the title: panel sizes, then the second pass. */
  function Assemble(spec: TooltipSpec, s: Styles, c: ContentLayout, t: TitleLayout): TooltipAttributes
    requires s.key.spacing.Some? && s.value.spacing.Some?
  {
    var style := spec.style;
    var pad := style.panel.padding;
    var hasContent := |c.rows| > 0;
    var titleBlock := TitleBlock(t.attrs, hasContent);
    var panelWidth := PanelWidthFrom(pad, c, t);
    var fill := FillWidth(panelWidth, pad, c.columns, s);
    var items := Attrs(c.measures);
    TooltipAttributes(
      GetPanelAttributes(style.panel),
      panelWidth,
      pad.top + pad.bottom + c.height + titleBlock,
      pad.top + pad.bottom + (if hasContent then CappedHeight(c.height, style.maxContentHeight) else 0.0) + titleBlock,
      pad,
      t.attrs,
      if hasContent then Widen(items, fill) else [],
      s.title, style.spaceRow, ContentStyle(s.shape, s.key, s.value, style.spaceRow),
      c.columns.hasShape, c.columns.key,
      if hasContent then WidenedValueWidth(c.columns.value, items, fill) else 0.0,
      style.maxContentHeight, spec.enterable, spec.transitionDuration)
  }

  /** The specification of getTooltipAttributes. */
  function TooltipLayout(actual: TooltipActual, spec: TooltipSpec, env: Env): (r: TooltipAttributes)
    ensures r.panel == GetPanelAttributes(spec.style.panel) && r.padding == spec.style.panel.padding
    ensures |r.content| == 0 <==> |VisibleRows(actual.content)| == 0
    ensures r.panelDomHeight <= r.panelHeight
  {
    Assemble(spec, ResolveStyles(spec.style, env), LayoutContent(actual.content, spec, env), TitleOf(actual, spec, env))
  }

  // ---------------------------------------------------------------------
  // Properties of the layout

  /** One box per visible row, in order; a box has a key, a value and a
      visible shape exactly when its row does, and its height is the tallest
      of its key, its value and its shape's size (the row's own, else the
      default), never below 0. */
  lemma LayoutRows(actual: TooltipActual, spec: TooltipSpec, env: Env)
    ensures var r := TooltipLayout(actual, spec, env);
            var rows := VisibleRows(actual.content);
            var shapeSize := ResolveStyles(spec.style, env).shape.size;
            && |r.content| == |rows|
            && forall j :: 0 <= j < |rows| ==>
                 && r.content[j].key.Some? == rows[j].key.Some?
                 && r.content[j].value.Some? == rows[j].value.Some?
                 && r.content[j].shape.visible == rows[j].hasShape
                 && 0.0 <= r.content[j].height
                 && (rows[j].key.Some? ==> r.content[j].key.value.height <= r.content[j].height)
                 && (rows[j].value.Some? ==> r.content[j].value.value.height <= r.content[j].height)
                 && (rows[j].hasShape ==> rows[j].shapeSize.GetOr(shapeSize) <= r.content[j].height)
  {
    AssembledRows(spec, ResolveStyles(spec.style, env), LayoutContent(actual.content, spec, env),
                  TitleOf(actual, spec, env), RowContextOf(spec, env));
  }

  lemma AssembledRows(spec: TooltipSpec, s: Styles, c: ContentLayout, t: TitleLayout, ctx: RowContext)
    requires s.key.spacing.Some? && s.value.spacing.Some?
    requires c.measures == MeasureAll(c.rows, ctx)
    ensures var r := Assemble(spec, s, c, t);
            && |r.content| == |c.rows|
            && forall j :: 0 <= j < |c.rows| ==>
                 && r.content[j].key.Some? == c.rows[j].key.Some?
                 && r.content[j].value.Some? == c.rows[j].value.Some?
                 && r.content[j].shape.visible == c.rows[j].hasShape
                 && 0.0 <= r.content[j].height
                 && (c.rows[j].key.Some? ==> r.content[j].key.value.height <= r.content[j].height)
                 && (c.rows[j].value.Some? ==> r.content[j].value.value.height <= r.content[j].height)
                 && (c.rows[j].hasShape ==> c.rows[j].shapeSize.GetOr(ctx.shapeSize) <= r.content[j].height)
  {
    var r := Assemble(spec, s, c, t);
    var items := Attrs(c.measures);
    var fill := FillWidth(PanelWidthFrom(spec.style.panel.padding, c, t), spec.style.panel.padding, c.columns, s);
    if |c.rows| > 0 {
      assert r.content == Widen(items, fill);
      forall j | 0 <= j < |c.rows|
        ensures && r.content[j].key.Some? == c.rows[j].key.Some?
                && r.content[j].value.Some? == c.rows[j].value.Some?
                && r.content[j].shape.visible == c.rows[j].hasShape
                && 0.0 <= r.content[j].height
                && (c.rows[j].key.Some? ==> r.content[j].key.value.height <= r.content[j].height)
                && (c.rows[j].value.Some? ==> r.content[j].value.value.height <= r.content[j].height)
                && (c.rows[j].hasShape ==> c.rows[j].shapeSize.GetOr(ctx.shapeSize) <= r.content[j].height)
      {
        var m := MeasureRow(c.rows[j], ctx);
        RowBox(c.rows[j], ctx);
        assert items[j] == m.attrs;
        assert r.content[j] == WidenRow(m.attrs, fill);
      }
    }
  }

  /** The panel height is the padding, the content height (each row's height
      and the spaceRow below every row but the last) and the title block (its
      height, and its spaceRow only when there is content). The DOM height
      caps the content part at maxContentHeight, so it never exceeds the panel
      height and equals it when there is no cap. */
  lemma LayoutHeight(actual: TooltipActual, spec: TooltipSpec, env: Env)
    ensures var r := TooltipLayout(actual, spec, env);
            var pad := spec.style.panel.padding;
            var titleBlock := r.title.height + (if r.title.visible && |r.content| > 0 then r.title.spaceRow else 0.0);
            && r.panelHeight == pad.top + pad.bottom + ContentHeight(r.content) + titleBlock
            && r.panelDomHeight <= r.panelHeight
            && (spec.style.maxContentHeight.None? ==> r.panelDomHeight == r.panelHeight)
            && (spec.style.maxContentHeight.Some? && |r.content| > 0 ==>
                  r.panelDomHeight <= pad.top + pad.bottom + spec.style.maxContentHeight.value + titleBlock)
            && (|r.content| > 0 ==>
                  r.panelDomHeight == pad.top + pad.bottom + CappedHeight(ContentHeight(r.content), spec.style.maxContentHeight) + titleBlock)
            && (|r.content| == 0 ==> r.panelDomHeight == pad.top + pad.bottom + titleBlock)
  {
    AssembledHeight(spec, ResolveStyles(spec.style, env), LayoutContent(actual.content, spec, env), TitleOf(actual, spec, env));
  }

  lemma AssembledHeight(spec: TooltipSpec, s: Styles, c: ContentLayout, t: TitleLayout)
    requires s.key.spacing.Some? && s.value.spacing.Some?
    requires |c.measures| == |c.rows|
    requires c.height == (if |c.rows| > 0 then ContentHeight(Attrs(c.measures)) else 0.0)
    requires !t.attrs.visible ==> t.attrs.height == 0.0
    ensures var r := Assemble(spec, s, c, t);
            var pad := spec.style.panel.padding;
            var titleBlock := r.title.height + (if r.title.visible && |r.content| > 0 then r.title.spaceRow else 0.0);
            && r.panelHeight == pad.top + pad.bottom + ContentHeight(r.content) + titleBlock
            && r.panelDomHeight <= r.panelHeight
            && (spec.style.maxContentHeight.None? ==> r.panelDomHeight == r.panelHeight)
            && (spec.style.maxContentHeight.Some? && |r.content| > 0 ==>
                  r.panelDomHeight <= pad.top + pad.bottom + spec.style.maxContentHeight.value + titleBlock)
            && (|r.content| > 0 ==>
                  r.panelDomHeight == pad.top + pad.bottom + CappedHeight(ContentHeight(r.content), spec.style.maxContentHeight) + titleBlock)
            && (|r.content| == 0 ==> r.panelDomHeight == pad.top + pad.bottom + titleBlock)
  {
    if |c.rows| > 0 {
      var fill := FillWidth(PanelWidthFrom(spec.style.panel.padding, c, t), spec.style.panel.padding, c.columns, s);
      WidenKeepsHeight(Attrs(c.measures), fill);
    }
  }

  /** The key column is the widest fixed (non-adaptive) key, 0 when there is
      none; adaptive keys take no part in it. The shape column is shown
      exactly when some row has a shape. */
  lemma LayoutColumns(actual: TooltipActual, spec: TooltipSpec, env: Env)
    ensures var r := TooltipLayout(actual, spec, env);
            var rows := VisibleRows(actual.content);
            && |r.content| == |rows|
            && (forall j :: 0 <= j < |rows| && rows[j].key.Some? && !rows[j].isKeyAdaptive ==>
                  r.content[j].key.Some? && r.content[j].key.value.width <= r.keyWidth)
            && (|| (r.keyWidth == 0.0 && forall j :: 0 <= j < |rows| ==> rows[j].key.None? || rows[j].isKeyAdaptive)
                || exists j :: 0 <= j < |rows| && rows[j].key.Some? && !rows[j].isKeyAdaptive
                                 && r.content[j].key.Some? && r.content[j].key.value.width == r.keyWidth)
            && (r.hasContentShape <==> exists j :: 0 <= j < |rows| && rows[j].hasShape)
  {
    var s := ResolveStyles(spec.style, env);
    AssembledColumns(spec, s, LayoutContent(actual.content, spec, env), TitleOf(actual, spec, env), RowContextOf(spec, env));
  }

  lemma AssembledColumns(spec: TooltipSpec, s: Styles, c: ContentLayout, t: TitleLayout, ctx: RowContext)
    requires s.key.spacing.Some? && s.value.spacing.Some?
    requires c.measures == MeasureAll(c.rows, ctx)
    requires c.columns == (if |c.rows| > 0 then ColumnsOf(c.measures, s.shape.spacing) else NoColumns)
    ensures var r := Assemble(spec, s, c, t);
            var rows := c.rows;
            && |r.content| == |rows|
            && (forall j :: 0 <= j < |rows| && rows[j].key.Some? && !rows[j].isKeyAdaptive ==>
                  r.content[j].key.Some? && r.content[j].key.value.width <= r.keyWidth)
            && (|| (r.keyWidth == 0.0 && forall j :: 0 <= j < |rows| ==> rows[j].key.None? || rows[j].isKeyAdaptive)
                || exists j :: 0 <= j < |rows| && rows[j].key.Some? && !rows[j].isKeyAdaptive
                                 && r.content[j].key.Some? && r.content[j].key.value.width == r.keyWidth)
            && (r.hasContentShape <==> exists j :: 0 <= j < |rows| && rows[j].hasShape)
  {
    var r := Assemble(spec, s, c, t);
    var ms := c.measures;
    if |c.rows| > 0 {
      var fill := FillWidth(PanelWidthFrom(spec.style.panel.padding, c, t), spec.style.panel.padding, c.columns, s);
      assert r.content == Widen(Attrs(ms), fill);
      assert forall j :: 0 <= j < |ms| ==> r.content[j].key == ms[j].attrs.key;
      KeyAndShapeColumns(c.rows, ctx, ms);
    }
  }

  /** The fixed-key and shape columns, row by row. */
  lemma KeyAndShapeColumns(rows: seq<Row>, ctx: RowContext, ms: seq<RowMeasure>)
    requires ms == MeasureAll(rows, ctx)
    ensures forall j :: 0 <= j < |rows| && rows[j].key.Some? && !rows[j].isKeyAdaptive ==>
              ms[j].attrs.key.Some? && ms[j].attrs.key.value.width <= MaxOrZero(Pool(ms, FixedKey))
    ensures || (MaxOrZero(Pool(ms, FixedKey)) == 0.0 && forall j :: 0 <= j < |rows| ==> rows[j].key.None? || rows[j].isKeyAdaptive)
            || exists j :: 0 <= j < |rows| && rows[j].key.Some? && !rows[j].isKeyAdaptive
                           && ms[j].attrs.key.Some? && ms[j].attrs.key.value.width == MaxOrZero(Pool(ms, FixedKey))
    ensures |Pool(ms, ShapeColumn)| > 0 <==> exists j :: 0 <= j < |rows| && rows[j].hasShape
  {
    ColumnWidth(ms, FixedKey);
    PoolEmpty(ms, ShapeColumn);
  }

  /** The inner width follows the title mode: in auto-width mode the content
      width (the title's when the content width is 0), otherwise the wider of
      title and content; the content width covers both the aligned row and
      the adaptive-key row. In auto-width mode with content and no maxWidth of
      its own, the title wraps and its width stays within the content width
      rounded up. */
  lemma LayoutWidth(actual: TooltipActual, spec: TooltipSpec, env: Env)
    ensures var r := TooltipLayout(actual, spec, env);
            var c := LayoutContent(actual.content, spec, env);
            var s := ResolveStyles(spec.style, env);
            var t := TitleOf(actual, spec, env);
            var pad := spec.style.panel.padding;
            && r.title == t.attrs
            && (|c.rows| > 0 ==>
                  && c.columns.shape + c.columns.key + s.key.spacing.value + c.columns.value + s.value.spacing.value <= c.width
                  && c.columns.shape + c.columns.adaptiveKey <= c.width)
            && (|c.rows| == 0 ==> c.width == 0.0)
            && (!AutoWidthMode(t.style) ==>
                  r.panelWidth == pad.left + pad.right + Max(r.title.width, c.width))
            && (AutoWidthMode(t.style) ==>
                  r.panelWidth == pad.left + pad.right + (if c.width != 0.0 then c.width else r.title.width))
            && (AutoWidthMode(t.style) && |c.rows| > 0 && TitleStyleOf(actual.title, s.title, env).maxWidth.None? ==>
                  t.style.multiLine == Some(true) && r.title.width <= Ceil(c.width) as real)
  {
  }

  /** The second pass, for a row whose value cell is auto-width (autoWidth
      defaults to true): the cell is as wide as the panel less the padding,
      the shape and key columns and both spacings, and takes that width
      rounded up as its maxWidth when it had none; its height is kept. */
  lemma LayoutValueColumn(actual: TooltipActual, spec: TooltipSpec, env: Env, j: nat)
    requires j < |VisibleRows(actual.content)|
    requires AutoValue(Attrs(LayoutContent(actual.content, spec, env).measures)[j])
    ensures var r := TooltipLayout(actual, spec, env);
            var c := LayoutContent(actual.content, spec, env);
            var s := ResolveStyles(spec.style, env);
            var pad := spec.style.panel.padding;
            var item := Attrs(c.measures)[j];
            var fill := r.panelWidth - pad.left - pad.right - c.columns.shape - r.keyWidth
                        - s.key.spacing.value - s.value.spacing.value;
            && j < |r.content| && r.content[j].value.Some?
            && r.content[j].value.value.width == fill
            && r.content[j].value.value.height == item.value.value.height
  {
    var r := TooltipLayout(actual, spec, env);
    var c := LayoutContent(actual.content, spec, env);
    var fill := SecondPassFill(actual, spec, env);
    assert r.content[j] == WidenRow(Attrs(c.measures)[j], fill);
  }

  /** The second pass gives an auto-width value cell without a maxWidth the
      cell width rounded up as its maxWidth, and otherwise keeps its style. */
  lemma LayoutValueStyle(actual: TooltipActual, spec: TooltipSpec, env: Env, j: nat)
    requires j < |VisibleRows(actual.content)|
    requires AutoValue(Attrs(LayoutContent(actual.content, spec, env).measures)[j])
    ensures var r := TooltipLayout(actual, spec, env);
            var item := Attrs(LayoutContent(actual.content, spec, env).measures)[j];
            && j < |r.content| && r.content[j].value.Some?
            && (Unset(item.value.value.style.maxWidth) ==>
                  r.content[j].value.value.style.maxWidth == Some(Ceil(r.content[j].value.value.width) as real))
            && (!Unset(item.value.value.style.maxWidth) ==> r.content[j].value.value.style == item.value.value.style)
  {
    var r := TooltipLayout(actual, spec, env);
    var c := LayoutContent(actual.content, spec, env);
    var fill := SecondPassFill(actual, spec, env);
    assert r.content[j] == WidenRow(Attrs(c.measures)[j], fill);
  }

  /** The second pass leaves the box of a row without an auto-width value cell as it was. */
  lemma LayoutValueColumnKept(actual: TooltipActual, spec: TooltipSpec, env: Env, j: nat)
    requires j < |VisibleRows(actual.content)|
    requires !AutoValue(Attrs(LayoutContent(actual.content, spec, env).measures)[j])
    ensures var r := TooltipLayout(actual, spec, env);
            && j < |r.content|
            && r.content[j] == Attrs(LayoutContent(actual.content, spec, env).measures)[j]
  {
    var r := TooltipLayout(actual, spec, env);
    var c := LayoutContent(actual.content, spec, env);
    var fill := SecondPassFill(actual, spec, env);
    assert r.content[j] == WidenRow(Attrs(c.measures)[j], fill);
  }

  /** The fill width of the second pass, and the rows it gives. */
  lemma SecondPassFill(actual: TooltipActual, spec: TooltipSpec, env: Env) returns (fill: real)
    ensures var r := TooltipLayout(actual, spec, env);
            var c := LayoutContent(actual.content, spec, env);
            var s := ResolveStyles(spec.style, env);
            var pad := spec.style.panel.padding;
            && fill == r.panelWidth - pad.left - pad.right - c.columns.shape - r.keyWidth
                       - s.key.spacing.value - s.value.spacing.value
            && (|c.rows| > 0 ==> r.content == Widen(Attrs(c.measures), fill))
  {
    var s := ResolveStyles(spec.style, env);
    var c := LayoutContent(actual.content, spec, env);
    var t := TitleOf(actual, spec, env);
    var r := TooltipLayout(actual, spec, env);
    var pad := spec.style.panel.padding;
    fill := FillWidth(PanelWidthFrom(pad, c, t), pad, c.columns, s);
    assert r == Assemble(spec, s, c, t);
  }

  /** The value column never shrinks below its first-pass width, and an
      auto-width value cell in row `j` makes it the larger of that and the
      fill width. */
  lemma LayoutValueWidth(actual: TooltipActual, spec: TooltipSpec, env: Env, j: nat)
    ensures var r := TooltipLayout(actual, spec, env);
            var c := LayoutContent(actual.content, spec, env);
            var s := ResolveStyles(spec.style, env);
            var pad := spec.style.panel.padding;
            var fill := r.panelWidth - pad.left - pad.right - c.columns.shape - r.keyWidth
                        - s.key.spacing.value - s.value.spacing.value;
            && c.columns.value <= r.valueWidth
            && (j < |c.rows| && AutoValue(Attrs(c.measures)[j]) ==> r.valueWidth == Max(c.columns.value, fill))
  {
    AssembledValueWidth(spec, ResolveStyles(spec.style, env), LayoutContent(actual.content, spec, env),
                        TitleOf(actual, spec, env), TooltipLayout(actual, spec, env), j);
  }

  lemma AssembledValueWidth(spec: TooltipSpec, s: Styles, c: ContentLayout, t: TitleLayout, r: TooltipAttributes, j: nat)
    requires s.key.spacing.Some? && s.value.spacing.Some?
    requires |c.measures| == |c.rows|
    requires |c.rows| == 0 ==> c.columns == NoColumns
    requires r == Assemble(spec, s, c, t)
    ensures var pad := spec.style.panel.padding;
            var fill := r.panelWidth - pad.left - pad.right - c.columns.shape - r.keyWidth
                        - s.key.spacing.value - s.value.spacing.value;
            && c.columns.value <= r.valueWidth
            && (j < |c.rows| && AutoValue(Attrs(c.measures)[j]) ==> r.valueWidth == Max(c.columns.value, fill))
  {
    if |c.rows| > 0 {
      var pad := spec.style.panel.padding;
      WidenedValueWidthIs(c.columns.value, Attrs(c.measures), FillWidth(PanelWidthFrom(pad, c, t), pad, c.columns, s));
    }
  }

  /** The second pass over the first-pass boxes, row by row. */
  lemma SecondPass(v: real, items: seq<RowAttrs>, fill: real)
    ensures var w := Widen(items, fill);
            && (forall j :: 0 <= j < |items| && AutoValue(items[j]) ==>
                  w[j].value.value.width == fill
                  && (Unset(items[j].value.value.style.maxWidth) ==> w[j].value.value.style.maxWidth == Some(Ceil(fill) as real))
                  && (!Unset(items[j].value.value.style.maxWidth) ==> w[j].value.value.style == items[j].value.value.style))
            && (forall j :: 0 <= j < |items| && !AutoValue(items[j]) ==> w[j] == items[j])
            && v <= WidenedValueWidth(v, items, fill)
            && ((exists j :: 0 <= j < |items| && AutoValue(items[j])) ==> WidenedValueWidth(v, items, fill) == Max(v, fill))
  {
    WidenedValueWidthIs(v, items, fill);
    var w := Widen(items, fill);
    assert forall j :: 0 <= j < |items| ==> w[j] == WidenRow(items[j], fill);
  }

  /** What one row adds to a pool. */
  function Pushed(w: Option<real>): seq<real> {
    if w.Some? then [w.value] else []
  }

  /** Measuring one more row extends the boxes by its box and each pool by its contribution. */
  lemma MeasureStep(ms: seq<RowMeasure>, i: nat)
    requires i < |ms|
    ensures Attrs(ms[..i + 1]) == Attrs(ms[..i]) + [ms[i].attrs]
  {
    assert ms[..i + 1][..i] == ms[..i];
  }

  lemma PoolStep(ms: seq<RowMeasure>, i: nat, col: Column)
    requires i < |ms|
    ensures Pool(ms[..i + 1], col) == Pool(ms[..i], col) + Pushed(Contribution(ms[i], col))
  {
    assert ms[..i + 1][..i] == ms[..i];
  }

  /** One more row adds its height and its gap to the running sums. */
  lemma HeightStep(content: seq<RowAttrs>, a: RowAttrs)
    ensures SumHeights(content + [a]) == SumHeights(content) + a.height
    ensures SumGaps(content + [a]) == SumGaps(content) + a.spaceRow
    ensures ContentHeight(content + [a]) == SumHeights(content) + a.height + SumGaps(content)
  {
    assert (content + [a])[..|content|] == content;
  }

  /** The map over the filtered rows: each row measured, its widths pushed
      into the four pools, its height (and, below all but the last row, its
      spaceRow) added to the content height. */
  method MeasureContent(filtered: seq<Row>, ctx: RowContext)
    returns (content: seq<RowAttrs>, keyWidths: seq<real>, adaptiveKeyWidths: seq<real>,
             valueWidths: seq<real>, shapeWidths: seq<real>, contentHeight: real)
    ensures content == Attrs(MeasureAll(filtered, ctx))
    ensures keyWidths == Pool(MeasureAll(filtered, ctx), FixedKey)
    ensures adaptiveKeyWidths == Pool(MeasureAll(filtered, ctx), AdaptiveKey)
    ensures valueWidths == Pool(MeasureAll(filtered, ctx), ValueColumn)
    ensures shapeWidths == Pool(MeasureAll(filtered, ctx), ShapeColumn)
    ensures contentHeight == ContentHeight(content)
  {
    ghost var ms := MeasureAll(filtered, ctx);
    content, keyWidths, adaptiveKeyWidths, valueWidths, shapeWidths := [], [], [], [], [];
    contentHeight := 0.0;
    var i := 0;
    while i < |filtered|
      invariant 0 <= i <= |filtered|
      invariant content == Attrs(ms[..i])
      invariant keyWidths == Pool(ms[..i], FixedKey)
      invariant adaptiveKeyWidths == Pool(ms[..i], AdaptiveKey)
      invariant valueWidths == Pool(ms[..i], ValueColumn)
      invariant shapeWidths == Pool(ms[..i], ShapeColumn)
      invariant i < |filtered| ==> contentHeight == SumHeights(content) + SumGaps(content)
      invariant i == |filtered| ==> contentHeight == ContentHeight(content)
    {
      var item := filtered[i];
      var itemAttrs := MeasureRow(item, ctx).attrs;
      MeasureStep(ms, i);
      ghost var m := ms[i];
      assert m == MeasureRow(item, ctx) && m.attrs == itemAttrs;
      PoolStep(ms, i, FixedKey);
      PoolStep(ms, i, AdaptiveKey);
      PoolStep(ms, i, ValueColumn);
      PoolStep(ms, i, ShapeColumn);
      if item.key.Some? {
        if !item.isKeyAdaptive {
          keyWidths := keyWidths + [itemAttrs.key.value.width];
        } else {
          adaptiveKeyWidths := adaptiveKeyWidths + [itemAttrs.key.value.width];
        }
      }
      assert keyWidths == Pool(ms[..i + 1], FixedKey);
      assert adaptiveKeyWidths == Pool(ms[..i + 1], AdaptiveKey);
      if item.value.Some? {
        valueWidths := valueWidths + [itemAttrs.value.value.width];
      }
      assert valueWidths == Pool(ms[..i + 1], ValueColumn);
      if item.hasShape {
        shapeWidths := shapeWidths + [item.shapeSize.GetOr(ctx.shapeSize)];
      }
      assert shapeWidths == Pool(ms[..i + 1], ShapeColumn);
      HeightStep(content, itemAttrs);
      contentHeight := contentHeight + itemAttrs.height;
      if i < |filtered| - 1 {
        contentHeight := contentHeight + itemAttrs.spaceRow;
      }
      content := content + [itemAttrs];
      i := i + 1;
    }
    assert ms[..i] == ms;
  }

  /** The second `forEach`: every auto-width value cell is re-widened to the
      fill width in place, and the value column follows it. */
  method WidenValues(items: seq<RowAttrs>, fill: real, firstPassValueWidth: real)
    returns (content: seq<RowAttrs>, valueWidth: real)
    ensures content == Widen(items, fill)
    ensures valueWidth == WidenedValueWidth(firstPassValueWidth, items, fill)
  {
    content, valueWidth := items, firstPassValueWidth;
    var j := 0;
    while j < |content|
      invariant 0 <= j <= |content| == |items|
      invariant forall k :: 0 <= k < j ==> content[k] == WidenRow(items[k], fill)
      invariant forall k :: j <= k < |content| ==> content[k] == items[k]
      invariant valueWidth == WidenedValueWidth(firstPassValueWidth, items[..j], fill)
    {
      var item := content[j];
      if item.value.Some? && item.value.value.style.autoWidth.GetOr(true) {
        var value := item.value.value.(width := fill);
        if Unset(value.style.maxWidth) {
          value := value.(style := value.style.(maxWidth := Some(Ceil(value.width) as real)));
        }
        content := content[j := item.(value := Some(value))];
        valueWidth := Max(valueWidth, value.width);
      }
      assert items[..j + 1][..j] == items[..j];
      j := j + 1;
    }
    assert items[..j] == items;
  }

  /** The title block: its style is the title label's with the title's own
      merged over it; in auto-width mode wrapping is switched on and the
      maximum width defaults to the content width rounded up, and the measured
      width is cut to that maximum. */
  method MeasureTitle(title: Title, titleStyle: TextStyle, commonSpaceRow: real,
                      hasContent: bool, contentMaxWidth: real, env: Env)
    returns (attrs: TitleAttrs, titleValueStyle: TextStyle)
    ensures TitleLayout(attrs, titleValueStyle) == LayoutTitle(title, titleStyle, commonSpaceRow, hasContent, contentMaxWidth, env)
  {
    var titleMaxWidth, titleMaxHeight := 0.0, 0.0;
    var titleVisible := title.visible.GetOr(true);
    var titleSpaceRow := title.spaceRow.GetOr(commonSpaceRow);
    var titleValue: Option<TextBox> := None;
    titleValueStyle := NoTextStyle;
    if titleVisible {
      titleValueStyle := TitleStyleOf(title, titleStyle, env);
      if AutoWidthMode(titleValueStyle) {
        titleValueStyle := titleValueStyle.(multiLine := Some(titleValueStyle.multiLine.GetOr(true)));
        titleValueStyle := titleValueStyle.(maxWidth :=
          if titleValueStyle.maxWidth.Some? then titleValueStyle.maxWidth
          else if hasContent then Some(Ceil(contentMaxWidth) as real) else None);
      }
      var m := env.measure(title.value.GetOr(Str("")), titleValueStyle);
      var width := m.width;
      if AutoWidthMode(titleValueStyle) && titleValueStyle.maxWidth.Some? {
        width := Min(m.width, titleValueStyle.maxWidth.value);
      }
      titleValue := Some(TextBox(width, m.height, titleValueStyle, m.text));
      titleMaxWidth := width;
      titleMaxHeight := m.height;
    }
    attrs := TitleAttrs(titleVisible, titleSpaceRow, titleValue, titleMaxWidth, titleMaxHeight);
  }

  /** The first pass of getTooltipAttributes: the filtered rows measured,
      the column maxima taken over the four pools, the content width and
      height. */
  method FirstPass(rows: seq<Row>, s: Styles, ctx: RowContext)
    returns (content: seq<RowAttrs>, columns: Columns, contentMaxWidth: real, contentHeight: real)
    requires s.key.spacing.Some? && s.value.spacing.Some?
    ensures var c := MeasuredContent(VisibleRows(rows), s, ctx);
            && content == (if |c.rows| > 0 then Attrs(c.measures) else [])
            && columns == c.columns && contentMaxWidth == c.width && contentHeight == c.height
  {
    var filtered := VisibleRows(rows);
    content, columns, contentMaxWidth, contentHeight := [], NoColumns, 0.0, 0.0;
    if |filtered| > 0 {
      var keyWidths, adaptiveKeyWidths, valueWidths, shapeWidths;
      content, keyWidths, adaptiveKeyWidths, valueWidths, shapeWidths, contentHeight := MeasureContent(filtered, ctx);
      var maxKeyWidth := MaxOrZero(keyWidths);
      var maxAdaptiveKeyWidth := MaxOrZero(adaptiveKeyWidths);
      var maxValueWidth := MaxOrZero(valueWidths);
      var maxShapeWidth := if |shapeWidths| > 0 then MaxOf(shapeWidths) + s.shape.spacing else 0.0;
      contentMaxWidth := Max(Max(maxShapeWidth + maxKeyWidth + s.key.spacing.value + maxValueWidth + s.value.spacing.value,
                                 maxShapeWidth + maxAdaptiveKeyWidth), contentMaxWidth);
      columns := Columns(maxKeyWidth, maxAdaptiveKeyWidth, maxValueWidth, maxShapeWidth, |shapeWidths| > 0);
    }
  }

  /** The layout as the method builds it, field by field, is the assembled one. */
  lemma AssembledFields(spec: TooltipSpec, s: Styles, c: ContentLayout, t: TitleLayout, r: TooltipAttributes)
    requires s.key.spacing.Some? && s.value.spacing.Some?
    requires var pad := spec.style.panel.padding;
             var hasContent := |c.rows| > 0;
             var titleBlock := TitleBlock(t.attrs, hasContent);
             var fill := FillWidth(PanelWidthFrom(pad, c, t), pad, c.columns, s);
             && r.panel == GetPanelAttributes(spec.style.panel)
             && r.panelWidth == PanelWidthFrom(pad, c, t)
             && r.panelHeight == pad.top + pad.bottom + c.height + titleBlock
             && r.panelDomHeight == pad.top + pad.bottom + (if hasContent then CappedHeight(c.height, spec.style.maxContentHeight) else 0.0) + titleBlock
             && r.padding == pad && r.title == t.attrs
             && r.content == (if hasContent then Widen(Attrs(c.measures), fill) else [])
             && r.titleStyle == s.title && r.titleStyleSpaceRow == spec.style.spaceRow
             && r.contentStyle == ContentStyle(s.shape, s.key, s.value, spec.style.spaceRow)
             && r.hasContentShape == c.columns.hasShape && r.keyWidth == c.columns.key
             && r.valueWidth == (if hasContent then WidenedValueWidth(c.columns.value, Attrs(c.measures), fill) else 0.0)
             && r.maxContentHeight == spec.style.maxContentHeight
             && r.enterable == spec.enterable && r.transitionDuration == spec.transitionDuration
    ensures r == Assemble(spec, s, c, t)
  {
  }

  /** getTooltipAttributes, step by step: running panel sizes, the first pass
      over the rows, the title, then the second pass. */
  method GetTooltipAttributes(actual: TooltipActual, spec: TooltipSpec, env: Env) returns (r: TooltipAttributes)
    ensures r == TooltipLayout(actual, spec, env)
  {
    var style := spec.style;
    var s := ResolveStyles(style, env);
    var pad := style.panel.padding;

    var panelWidth := pad.left + pad.right;
    var panelHeight := pad.top + pad.bottom;
    var panelDomHeight := pad.top + pad.bottom;

    var ctx := RowContext(env, s.key, s.value, s.shape.size, style.spaceRow);
    var content, columns, contentMaxWidth, contentHeight := FirstPass(actual.content, s, ctx);
    var hasContent := |VisibleRows(actual.content)| > 0;
    ghost var c := LayoutContent(actual.content, spec, env);
    var valueWidth := columns.value;
    if hasContent {
      panelHeight := panelHeight + contentHeight;
      panelDomHeight := panelDomHeight + CappedHeight(contentHeight, style.maxContentHeight);
    }
    assert panelHeight == pad.top + pad.bottom + c.height;

    // the title
    var titleAttrs, titleValueStyle := MeasureTitle(actual.title, s.title, style.spaceRow, hasContent, contentMaxWidth, env);
    var titleHeightWithSpace := TitleBlock(titleAttrs, hasContent);
    ghost var t := TitleOf(actual, spec, env);
    assert t.attrs == titleAttrs && t.style == titleValueStyle;
    panelHeight := panelHeight + titleHeightWithSpace;
    panelDomHeight := panelDomHeight + titleHeightWithSpace;

    if AutoWidthMode(titleValueStyle) {
      panelWidth := panelWidth + (if contentMaxWidth != 0.0 then contentMaxWidth else titleAttrs.width);
    } else {
      panelWidth := panelWidth + Max(titleAttrs.width, contentMaxWidth);
    }
    assert panelWidth == PanelWidthFrom(pad, c, t);
    ghost var fill := FillWidth(panelWidth, pad, c.columns, s);

    // the auto-width value cells
    if hasContent {
      var fillWidth := panelWidth - pad.left - pad.right - columns.shape - columns.key
                       - s.key.spacing.value - s.value.spacing.value;
      assert fillWidth == fill;
      content, valueWidth := WidenValues(content, fillWidth, valueWidth);
    }

    r := TooltipAttributes(
      GetPanelAttributes(style.panel),
      panelWidth, panelHeight, panelDomHeight,
      pad,
      titleAttrs,
      content,
      s.title, style.spaceRow, ContentStyle(s.shape, s.key, s.value, style.spaceRow),
      columns.hasShape, columns.key, valueWidth,
      style.maxContentHeight, spec.enterable, spec.transitionDuration);
    AssembledFields(spec, s, c, t, r);
  }
}
