# VChart tooltip layout, mark-line dispatch and sankey tooltip pattern in Dafny

This project models three pieces of VChart and proves properties of them.

- **Tooltip box layout** (`tooltip_attribute.dfy`, module `TooltipAttribute`).
  - It starts from a resolved tooltip: an optional title and rows of key, value and shape.
  - With the tooltip style it computes the panel attributes, the panel width, height and DOM height, one box per row, and the key and value column widths.
  - The text styles are resolved by the corrected `getTextAttributes` (Findings row 1), which applies the defaults where the style sets nothing. The code as written does not.
  - `TooltipLayout` is the layout as a pure function, built stage by stage.
  - `GetTooltipAttributes` is the imperative method, proved equal to `TooltipLayout`. It keeps running height variables, pushes widths into four pools and widens value cells in a second pass.
  - The `Layout*` lemmas (`LayoutRows`, `LayoutHeight`, `LayoutColumns`, `LayoutWidth`, `LayoutValueColumn` and its companions) state what the layout promises.
- **Mark line** (`mark_line.dfy`, module `MarkLine`).
  - `CreateComponent` turns the chart's `markLine` spec (one object or an array) into component instances.
  - `Layout` is `_markerLayout` with the corrected start placement (Findings row 2). It picks the anchor mode, builds the clip rectangle, splits a step line into segments and places the label.
  - The class `MarkLine` holds the spec, the marker data and the component's attributes.
  - `InitDataView` picks the aggregation and regression transforms step by step. It is proved equal to the declarative `Pipeline`.
- **Sankey tooltip pattern** (`sankey_tooltip.dfy`, module `SankeyTooltip`).
  - `FormatTitle` is the title formatter of the mark pattern.
  - `GetDefaultTooltipPattern` builds the dimension content with two nested loops. It is proved equal to `PatternOf`.
- `wrappers.dfy` (module `Wrappers`) holds the `Option` type.

Some collaborators are not defined here. They are fields of function type in a parameter record:
- text measurement and `mergeSpec`: `TooltipAttribute.Env`;
- the mark-line layout helpers and the clip range: `MarkLine.Layouts`;
- the spec processors: `MarkLine.Processors`.

Every property proved holds for any behaviour of these collaborators, unless a lemma states a condition on them.

## Model

| member | source | states |
|---|---|---|
| TooltipAttribute.DefaultSpacingLostAsWritten | packages/vchart/src/plugin/components/tooltip-handler/utils/attribute.ts:18-45 | As written, a style without `spacing` resolves to no spacing even though the defaults carry 10. |
| TooltipAttribute.GetTextAttributesFallbacks | packages/vchart/src/plugin/components/tooltip-handler/utils/attribute.ts:24-45 | `fill` falls back to `fontColor`. The font family falls back to the global theme's, then to the defaults'. Spacing, autoWidth, multiLine, maxWidth and wordBreak fall back to the defaults', and a key the style sets is kept. With empty defaults (as rows and titles use it) the result equals the code as written. |
| TooltipAttribute.GetTextAttributes | packages/vchart/src/plugin/components/tooltip-handler/utils/attribute.ts:24-45 | The corrected resolver. Spacing is undefined only when neither the style nor the defaults set it. With empty defaults it equals the code as written. `GetTextAttributesFallbacks` and `GetTextAttributesIdempotent` state the rest. |
| TooltipAttribute.GetTextAttributesIdempotent | packages/vchart/src/plugin/components/tooltip-handler/utils/attribute.ts:24-45 | Resolving an already resolved style again gives the same style. |
| TooltipAttribute.GetPanelAttributes | packages/vchart/src/plugin/components/tooltip-handler/utils/attribute.ts:47-71 | The border width defaults to 0, and the shadow flag says whether there is a shadow. A stroke comes only from a non-empty border colour, a fill only from a non-empty background. Shadow parameters appear exactly when there is a shadow, and then carry its colour, blur, x and y offsets and spread. There are four equal corner radii exactly when the border has a radius. |
| TooltipAttribute.ResolveStyles | packages/vchart/src/plugin/components/tooltip-handler/utils/attribute.ts:83-90 | The title, key and value styles come from the corrected resolver (`GetTextAttributes`, Findings row 1), not the code as written. With it, key and value spacing are always defined (10 by default). The shape size defaults to 8 and the shape spacing to 6. |
| TooltipAttribute.VisibleRows | packages/vchart/src/plugin/components/tooltip-handler/utils/attribute.ts:129-131 | Only rows with a truthy key or value that are not `visible: false` survive, and there are no more of them than rows. |
| TooltipAttribute.VisibleRowsAppend | packages/vchart/src/plugin/components/tooltip-handler/utils/attribute.ts:129-131 | The filter distributes over concatenation, so the order of rows is kept. |
| TooltipAttribute.VisibleRowsComplete | packages/vchart/src/plugin/components/tooltip-handler/utils/attribute.ts:129-131 | Every row that passes the test survives the filter. |
| TooltipAttribute.RowSymbol | packages/vchart/src/plugin/components/tooltip-handler/utils/attribute.ts:201-221 | A row's symbol is visible, with the row's shape type (`""` by default) and line width. Its stroke is the row's stroke, else its fill, else its deprecated colour. A hollow symbol has no fill, and any other is filled with the fill, else the colour. |
| TooltipAttribute.RowHeight | packages/vchart/src/plugin/components/tooltip-handler/utils/attribute.ts:146-223 | The height covers the key, the value and the shape size, is never below 0, and equals one of them or 0. |
| TooltipAttribute.MeasureRow | packages/vchart/src/plugin/components/tooltip-handler/utils/attribute.ts:145-229 | A row's box has a key or value exactly when the row has one, and its spaceRow defaults to the common one. The key width goes into the fixed or the adaptive pool, the value width into the value pool, and the shape size (the row's own, else the default) into the shape pool. |
| TooltipAttribute.RowBox | packages/vchart/src/plugin/components/tooltip-handler/utils/attribute.ts:164-223 | A box's shape is visible exactly when the row has a shape, with the row's shape type and line width. A hollow shape is not filled, any other is filled with the fill colour (else the deprecated colour), and the stroke falls back to that colour. The height is the tallest part (0 for none) and never below 0. |
| TooltipAttribute.PoolMembership | packages/vchart/src/plugin/components/tooltip-handler/utils/attribute.ts:178-218 | A width is in a column's pool exactly when some row contributed it. |
| TooltipAttribute.PoolEmpty | packages/vchart/src/plugin/components/tooltip-handler/utils/attribute.ts:234-243 | A pool is empty exactly when no row contributes to it. |
| TooltipAttribute.MaxOf | packages/vchart/src/plugin/components/tooltip-handler/utils/attribute.ts:234-237 | `maxInArray` returns an element that no element exceeds. |
| TooltipAttribute.ColumnWidth | packages/vchart/src/plugin/components/tooltip-handler/utils/attribute.ts:234-237 | A column is at least as wide as every contribution. It equals some contribution, or is 0 when nothing contributes. |
| TooltipAttribute.KeyAndShapeColumns | packages/vchart/src/plugin/components/tooltip-handler/utils/attribute.ts:178-243 | The key column covers every non-adaptive key and is 0 or one of them. Shapes exist exactly when some row has a shape. |
| TooltipAttribute.ContentWidth | packages/vchart/src/plugin/components/tooltip-handler/utils/attribute.ts:238-242 | The content width covers both the aligned row (shape, key, key spacing, value, value spacing) and the adaptive-key row, is never below 0, and equals one of them or 0. |
| TooltipAttribute.ContentHeightOfTwo | packages/vchart/src/plugin/components/tooltip-handler/utils/attribute.ts:224-227 | Two rows take both heights and the first row's gap only. |
| TooltipAttribute.CappedHeight | packages/vchart/src/plugin/components/tooltip-handler/utils/attribute.ts:232 | The capped height is at most the content height and at most the cap, and it equals one of them. |
| TooltipAttribute.LayoutContent | packages/vchart/src/plugin/components/tooltip-handler/utils/attribute.ts:129-246 | The first pass lays out exactly the filtered rows, each measured in the common row context. |
| TooltipAttribute.MeasuredContent | packages/vchart/src/plugin/components/tooltip-handler/utils/attribute.ts:138-246 | The first pass over already filtered rows keeps exactly those rows, each measured in the given row context. |
| TooltipAttribute.AutoWidthTitleStyle | packages/vchart/src/plugin/components/tooltip-handler/utils/attribute.ts:263-270 | In auto-width mode the title wraps and its maxWidth defaults to the content width rounded up (none without content). Outside that mode the style is untouched, and the mode itself never changes. |
| TooltipAttribute.LayoutTitle | packages/vchart/src/plugin/components/tooltip-handler/utils/attribute.ts:252-287 | Visibility defaults to true and spaceRow to the common one. A hidden title has zero size and the empty style. In auto-width mode the width never exceeds maxWidth. |
| TooltipAttribute.InnerWidth | packages/vchart/src/plugin/components/tooltip-handler/utils/attribute.ts:289-293 | In auto-width mode it is the content width, or the title width when the content width is 0. Otherwise it is the wider of the two. |
| TooltipAttribute.WidenRow | packages/vchart/src/plugin/components/tooltip-handler/utils/attribute.ts:297-314 | An auto-width value (autoWidth defaults to true) takes the fill width, and takes its ceiling as maxWidth only when maxWidth was unset or 0. Height, gap, key and shape never change, and other rows are untouched. |
| TooltipAttribute.WidenedValueWidthIs | packages/vchart/src/plugin/components/tooltip-handler/utils/attribute.ts:313 | The value column never shrinks. It is the larger of the first-pass width and the fill width when some value is auto-width, and unchanged otherwise. |
| TooltipAttribute.WidenKeepsHeight | packages/vchart/src/plugin/components/tooltip-handler/utils/attribute.ts:296-316 | The second pass leaves the content height unchanged. |
| TooltipAttribute.LayoutRows | packages/vchart/src/plugin/components/tooltip-handler/utils/attribute.ts:145-230 | There is one box per visible row, in order, with a key, value and visible shape exactly when the row has one. Its height covers the key, the value and the shape size, and is never below 0. |
| TooltipAttribute.LayoutHeight | packages/vchart/src/plugin/components/tooltip-handler/utils/attribute.ts:224-285 | Panel height is the padding, plus the content height (heights plus each gap but the last), plus the title height, plus the title's spaceRow only with content. The DOM height is the same with the content part capped at maxContentHeight, and has no content part without rows. So it never exceeds the panel height and equals it without a cap. |
| TooltipAttribute.LayoutColumns | packages/vchart/src/plugin/components/tooltip-handler/utils/attribute.ts:234-244 | keyWidth is the widest non-adaptive key, or 0 when there is none. `hasContentShape` holds exactly when some row has a shape. |
| TooltipAttribute.LayoutWidth | packages/vchart/src/plugin/components/tooltip-handler/utils/attribute.ts:238-293 | The panel width is the padding plus the inner width of the title's mode. The content width covers both width formulas and is 0 without content. In auto-width mode with content and no title maxWidth, the title wraps and stays within the ceiling of the content width. |
| TooltipAttribute.LayoutValueColumn | packages/vchart/src/plugin/components/tooltip-handler/utils/attribute.ts:296-309 | An auto-width value in row j is as wide as the panel less padding, shape and key columns and both spacings. Its height is kept. |
| TooltipAttribute.LayoutValueStyle | packages/vchart/src/plugin/components/tooltip-handler/utils/attribute.ts:296-312 | An auto-width value in row j without a maxWidth (unset or 0) gets its width rounded up as maxWidth. One with a maxWidth keeps its whole style. |
| TooltipAttribute.LayoutValueColumnKept | packages/vchart/src/plugin/components/tooltip-handler/utils/attribute.ts:296-316 | A row without an auto-width value is exactly as in the first pass. |
| TooltipAttribute.LayoutValueWidth | packages/vchart/src/plugin/components/tooltip-handler/utils/attribute.ts:296-316 | valueWidth is at least the first-pass width. When row j has an auto-width value it is the larger of that and the fill width. |
| TooltipAttribute.SecondPass | packages/vchart/src/plugin/components/tooltip-handler/utils/attribute.ts:296-316 | For any rows and fill width: every auto-width value takes the fill width and, when unset, its ceiling as maxWidth. Other rows are untouched. The value width never shrinks and becomes the larger of itself and the fill width when some value is auto-width. |
| TooltipAttribute.MeasureContent | packages/vchart/src/plugin/components/tooltip-handler/utils/attribute.ts:138-246 | The loop's boxes, the four pools and the running content height equal the first-pass specification. |
| TooltipAttribute.FirstPass | packages/vchart/src/plugin/components/tooltip-handler/utils/attribute.ts:129-246 | The first pass (filter, row loop, the four maxima, the content width) gives exactly the boxes, columns, width and height of `LayoutContent`. |
| TooltipAttribute.WidenValues | packages/vchart/src/plugin/components/tooltip-handler/utils/attribute.ts:296-316 | The in-place second pass gives the widened rows and the raised value width. |
| TooltipAttribute.MeasureTitle | packages/vchart/src/plugin/components/tooltip-handler/utils/attribute.ts:248-287 | The title block computed with its mutable style equals `LayoutTitle`. |
| TooltipAttribute.GetTooltipAttributes | packages/vchart/src/plugin/components/tooltip-handler/utils/attribute.ts:73-322 | The imperative layout returns exactly `TooltipLayout`, about which the `Layout*` lemmas hold. Its styles come from the corrected resolver (Findings row 1). |
| TooltipAttribute.TooltipLayout | packages/vchart/src/plugin/components/tooltip-handler/utils/attribute.ts:73-322 | The layout as a function. The panel attributes are `GetPanelAttributes` of the panel theme, with the theme's padding. There is content exactly when some row is visible. The DOM height never exceeds the panel height. The `Layout*` lemmas state the rest. |
| MarkLine.KeptSound | packages/vchart/src/component/marker/mark-line/mark-line.ts:49-55 | Each instance made from an array is a visible entry of it, tagged with its own index. |
| MarkLine.Kept | packages/vchart/src/component/marker/mark-line/mark-line.ts:49-55 | The array branch never makes more instances than entries. `KeptSound`, `KeptOrdered` and `KeptComplete` state which instances it makes. |
| MarkLine.KeptOrdered | packages/vchart/src/component/marker/mark-line/mark-line.ts:49-55 | The indices of the instances increase, so the array order is kept. |
| MarkLine.KeptComplete | packages/vchart/src/component/marker/mark-line/mark-line.ts:49-55 | Every visible entry of the array is made into an instance. |
| MarkLine.InvisibleSingleThrowsAsWritten | packages/vchart/src/component/marker/mark-line/mark-line.ts:46-50 | As written, a single object with `visible: false` reaches `forEach` and throws. |
| MarkLine.Components | packages/vchart/src/component/marker/mark-line/mark-line.ts:41-56 | Nothing is created exactly when there is no spec. A single visible spec gives one instance without an index. The result differs from the code as written only for a hidden single spec, which creates nothing. |
| MarkLine.CreateComponent | packages/vchart/src/component/marker/mark-line/mark-line.ts:41-56 | The loop pushing one instance per visible entry gives `Components`. |
| MarkLine.ProcessTransforms | packages/vchart/src/component/marker/mark-line/mark-line.ts:245-289 | Under `coordinates`, `xy` ends the pipeline with a regression over the series' x and y fields, and `xy` alone gives exactly that one regression. Otherwise `y` wins over `x` for a single aggregation. With no process key there is no further transform. `x` or `y` together with `xy` aggregates with the regression options. |
| MarkLine.Pipeline | packages/vchart/src/component/marker/mark-line/mark-line.ts:217-295 | There is no data view exactly when the spec has none of the keys `x`, `y`, `coordinates`. The key `x` (else `y`) aggregates the series' view data once. `coordinates` first aggregates with the coordinate options, then applies `ProcessTransforms`. |
| MarkLine.AnchorModes | packages/vchart/src/component/marker/mark-line/mark-line.ts:112-131 | A valid `x`, or `coordinates` with a valid `process.x`, uses the first line of xLayout. Next a valid `y`, or `coordinates` with a valid `process.y`, uses the first line of yLayout. `coordinates` without a process, or with an `xy` key in it, uses coordinateLayout, but a process with no valid `x` or `y` and no `xy` key (a null `x` included) disables it. Positions pass through, and otherwise there are no points. |
| MarkLine.AnchorPoints | packages/vchart/src/component/marker/mark-line/mark-line.ts:112-131 | There are anchor points only in the x, y or coordinate mode, or with positions. `AnchorModes` states each mode. |
| MarkLine.LimitRect | packages/vchart/src/component/marker/mark-line/mark-line.ts:136-149 | The rectangle exists exactly when `clip` or `label.confine` is set. It starts at the range's minimum and ends at its maximum on both axes. |
| MarkLine.LabelAttrs | packages/vchart/src/component/marker/mark-line/mark-line.ts:151-156 | The component's label, with its text replaced by the formatter's result when there is a formatter, and kept otherwise. |
| MarkLine.StepLabelFields | packages/vchart/src/component/marker/mark-line/mark-line.ts:191-198 | Placement fields win over label fields. Other label fields are kept. The text style keeps the component's fields and is centred both ways. |
| MarkLine.StaleRefXAsWritten | packages/vchart/src/component/marker/mark-line/mark-line.ts:173-180 | As written, a start label keeps a stale `refX` and gains an `efX` key. The corrected placement resets `refX` to 0. |
| MarkLine.Placement | packages/vchart/src/component/marker/mark-line/mark-line.ts:158-181 | A pinned main segment on a multi-segment line puts the label in the middle, otherwise at the start shifted by the text offset. autoRotate is off and `refX` and `refY` are 0 either way. |
| MarkLine.ThreeSegments | packages/vchart/src/component/marker/mark-line/mark-line.ts:184-190 | The three segments are the consecutive pairs of the four join points. |
| MarkLine.Layout | packages/vchart/src/component/marker/mark-line/mark-line.ts:104-215 | Offsets and the clip rectangle are always written. A step line writes its multiSegment and mainSegmentIndex, and a plain line keeps the previous ones. |
| MarkLine.LineGeometry | packages/vchart/src/component/marker/mark-line/mark-line.ts:158-214 | A plain line is its anchor points and its formatted label. A step line is the join points (expandDistance defaulting to 0), either as one polyline or as three segments sharing their ends. |
| MarkLine.StepLabelPlacement | packages/vchart/src/component/marker/mark-line/mark-line.ts:158-198 | A step label carries the placement and the formatted text. Its text style is centred and keeps the component's other fields. All other label fields are kept. |
| MarkLine.MarkLine.InitDataView | packages/vchart/src/component/marker/mark-line/mark-line.ts:217-295 | The step-by-step choice of options and flags produces `Pipeline`'s data view. Marker data is left alone when there is none. |
| MarkLine.MarkLine.MarkerLayout | packages/vchart/src/component/marker/mark-line/mark-line.ts:104-215 | The component's attributes become `Layout` of the previous ones. Spec and data are unchanged. |
| SankeyTooltip.NumericLinkSides | packages/vchart/src/series/sankey/tooltip-helper.ts:20-22 | On a numeric link each side reads its series key when it is an integral index inside the keys, and `undefined` otherwise. |
| SankeyTooltip.OutOfRangeLinkTitle | packages/vchart/src/series/sankey/tooltip-helper.ts:20-22 | A negative, fractional or too large index, or a non-numeric target, reads `undefined` on its side of ` => `. |
| SankeyTooltip.LinkTitleIgnoresDatum | packages/vchart/src/series/sankey/tooltip-helper.ts:19-24 | A link's title (truthy source) does not depend on the datum or the key. |
| SankeyTooltip.NodeTitleIgnoresLink | packages/vchart/src/series/sankey/tooltip-helper.ts:19-26 | A node's title (falsy source) does not depend on the target, the series keys or how numbers print. |
| SankeyTooltip.NamedLinkTitle | packages/vchart/src/series/sankey/tooltip-helper.ts:24 | Two named nodes read `source => target`, whatever the datum and the key. |
| SankeyTooltip.FormatTitle | packages/vchart/src/series/sankey/tooltip-helper.ts:18-26 | A link (truthy source) always gives a string. `NumericLinkSides`, `NamedLinkTitle`, `IndexedLinkTitle`, `LinkTitleIgnoresDatum`, `NodeRowTitle` and `NodeKeyTitle` state its values. |
| SankeyTooltip.NodeRowTitle | packages/vchart/src/series/sankey/tooltip-helper.ts:26 | For a node (falsy source) with a data row, the title is the row's category field, or undefined when the row lacks it. |
| SankeyTooltip.NodeKeyTitle | packages/vchart/src/series/sankey/tooltip-helper.ts:26 | For a node without a data row, the title is the datum's key. |
| SankeyTooltip.IndexedLinkTitle | packages/vchart/src/series/sankey/tooltip-helper.ts:19-26 | Node indices read their series keys, and source 0 falls back to the category field. |
| SankeyTooltip.MarkPattern | packages/vchart/src/series/sankey/tooltip-helper.ts:12-43 | The pattern is visible and its title has no shape. It has exactly one content line, with a shape that is not hollow. |
| SankeyTooltip.SeriesIdsAppend | packages/vchart/src/series/sankey/tooltip-helper.ts:52-65 | Entries of earlier dimensions come first, so iteration order is kept. |
| SankeyTooltip.SeriesIdsCount | packages/vchart/src/series/sankey/tooltip-helper.ts:52-65 | There is one series id per dimension data entry. |
| SankeyTooltip.GetDefaultTooltipPattern | packages/vchart/src/series/sankey/tooltip-helper.ts:10-76 | The nested loops give `PatternOf`. The result is null exactly for another active type, or for a dimension without dimension info. Otherwise there is one shaped, non-hollow line per entry, carrying that entry's series id in order. |
| SankeyTooltip.PatternOf | packages/vchart/src/series/sankey/tooltip-helper.ts:10-76 | The pattern is null exactly for another active type, or for a dimension without dimension info. Otherwise it is visible and its title has no shape. `MarkPattern`, `SeriesIdsAppend` and `SeriesIdsCount` state the rest. |

## Left out

- Text measurement (`measureTooltipText`) and `mergeSpec` are parameters (`Env`), not modelled.
- `normalizePadding` and `normalizeLayoutPaddingSpec`: the padding is taken as already normalised to four numbers.
- TooltipAttribute.TooltipStyle: `style.spaceRow` is taken as a number. If it is unset, the source computes NaN heights, and that case is not modelled.
- TooltipAttribute.GetTooltipAttributes: `Math.ceil` and `Math.min`/`Math.max` are modelled over reals. NaN and infinities are not modelled, and the `Infinity` and `Number.MAX_VALUE` sentinels are `Option`s.
- TooltipAttribute.GetTextAttributesFallbacks: only the font family of the global theme is modelled, because that is the only key the function reads from it.
- TooltipAttribute.ResolveStyles and TooltipAttribute.GetTooltipAttributes use the corrected text resolver, not `getTextAttributes` as written. The code as written leaves `spacing`, `wordBreak` and the font family undefined whenever the label style does not set them, so when the key or value label style sets no `spacing` its content width at line 239 is NaN; that layout is not modelled beyond `DefaultSpacingLostAsWritten`.
- The mark line's layout helpers (`xLayout`, `yLayout`, `coordinateLayout`, `getInsertPoints`, `getTextOffset`) and `_computeClipRange` are parameters (`Layouts`). `xLayout` and `yLayout` are taken to return at least one line, `getInsertPoints` four points, and `getTextOffset` a `dx`/`dy` pair.
- The `DataView` transforms are named by their options, not computed. `_processSpecX`, `_processSpecY` and `_processSpecCoo` are parameters (`Processors`).
- MarkLine.MarkLine.MarkerLayout: `dataPoints` (line 133) and the series' view data are given values passed to the label formatter, not computed. The method requires marker data because line 133 reads it unconditionally. On that point the code is followed rather than keeping the last geometry when marker data is missing.
- `_createMarkerComponent`, `setAttributes` rendering and `getContainer().add` are left out. The component is its attribute record, which the constructor takes as given.
- The `change` subscription (lines 291-293) is the explicit call `MarkerLayout`.
- MarkLine.Layout and MarkLine.MarkLine.MarkerLayout place a start label with the corrected `Placement` (Findings row 2), which sets `refX` to 0. The code as written at line 178 writes `efX: 0` instead, so a start-placed step label keeps its previous `refX` and gains an `efX` key; that behaviour is modelled only by `StaleRefXAsWritten`.
- MarkLine.CreateComponent: the instances are the spec and spec index handed to the constructor. The constructed components and the shared option object are left out.
- SankeyTooltip.NumericLinkSides: JavaScript's coercion of a numeric string index (`keys["2"]`) is not modelled. Such a target reads `undefined` here.
- SankeyTooltip.ToText: number-to-string conversion is a parameter.
- Callbacks of the base series helper (key, value, shape type, colour and stroke) are named by tags. Their bodies are not part of this model.

## Findings

| source | as written | input that shows it | evidently intended | confidence | as-written member | corrected member |
|---|---|---|---|---|---|---|
| packages/vchart/src/plugin/components/tooltip-handler/utils/attribute.ts:29-43 | The object literal spreads the defaults, then writes every key again, even when the style leaves it undefined. | A key label theme without `spacing`: the key style has no spacing, and the content width at line 239 becomes NaN. | Defaults apply where the style sets nothing (spacing 10, `break-word`, token font). | not executed; medium | TooltipAttribute.DefaultSpacingLostAsWritten | TooltipAttribute.GetTextAttributesFallbacks |
| packages/vchart/src/component/marker/mark-line/mark-line.ts:178 | The start label writes `efX: 0`. | A label whose attributes carry `refX: 12`: the placed label keeps `refX: 12` and gains `efX`. | `refX: 0`, matching the `refY: 0` beside it and the middle placement. | not executed; high | MarkLine.StaleRefXAsWritten | MarkLine.Placement |
| packages/vchart/src/component/marker/mark-line/mark-line.ts:46-50 | A non-array spec with `visible: false` falls through to `markLineSpec.forEach`. | `markLine: { visible: false }`: objects have no `forEach`, so a TypeError is thrown. | A hidden single mark line creates no component. | not executed; high | MarkLine.InvisibleSingleThrowsAsWritten | MarkLine.Components |
