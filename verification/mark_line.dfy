/** The mark-line component: which specs become components, where the line
    is anchored, how a step line is cut into segments and where its label
    goes, and which data pipeline feeds it. The layout helpers the component
    calls (xLayout, yLayout, coordinateLayout, getInsertPoints,
    getTextOffset, the clip range of the series regions, the spec
    processors) are not part of this model: they are function-typed fields
    of `Layouts` and `Processors`. */
module MarkLine {
  import opened Wrappers

  // ---------------------------------------------------------------------
  // Values

  /** A JavaScript value, as far as the label attributes need one. */
  datatype Value = Undefined | Null | Bool(b: bool) | Num(n: real) | Str(s: string) | Obj(fields: map<string, Value>)

  /** A spec property: absent (`!('k' in spec)`), present but null or
      undefined, or set to a value (`isValid`). */
  datatype Slot<+T> = Missing | Nil | Present(value: T)

  function Get(m: map<string, Value>, k: string): Value {
    if k in m then m[k] else Undefined
  }

  datatype Point = Point(x: real, y: real)

  function At(points: seq<Point>, i: nat): Option<Point> {
    if i < |points| then Some(points[i]) else None
  }

  // ---------------------------------------------------------------------
  // The spec

  datatype Process = Process(x: Slot<Value>, y: Slot<Value>, xy: Slot<Value>)

  datatype LineSpec = LineSpec(multiSegment: Option<bool>, mainSegmentIndex: Option<int>)

  datatype MarkLineSpec = MarkLineSpec(
    x: Slot<Value>, y: Slot<Value>, coordinates: Slot<Value>, process: Slot<Process>,
    positions: Slot<seq<Point>>, autoRange: Option<bool>,
    clip: Option<bool>, labelConfine: Option<bool>,
    formatMethod: Option<(Value, Value) -> Value>,
    markLineType: Option<string>, line: Option<LineSpec>,
    connectDirection: Option<string>, expandDistance: Option<real>,
    visible: Option<bool>)

  // ---------------------------------------------------------------------
  // Which specs become components

  /** The chart's `markLine` entry (or the default spec): nothing, one
      object, or an array. */
  datatype SpecInput = NoSpec | Single(spec: MarkLineSpec) | List(specs: seq<MarkLineSpec>)

  /** The spec and the spec index handed to `new MarkLine`. */
  datatype Instance = Instance(spec: MarkLineSpec, specIndex: Option<nat>)

  datatype Created = NotCreated | One(instance: Instance) | Many(instances: seq<Instance>) | TypeError

  predicate Visible(m: MarkLineSpec) { m.visible != Some(false) }

  /** The visible entries of an array, each with its index, in order. */
  function Kept(specs: seq<MarkLineSpec>): (r: seq<Instance>)
    ensures |r| <= |specs|
  {
    if |specs| == 0 then []
    else
      var n := |specs| - 1;
      Kept(specs[..n]) + (if Visible(specs[n]) then [Instance(specs[n], Some(n))] else [])
  }

  /** Every kept entry is a visible entry of the array tagged with its own
      index. */
  lemma {:induction false} KeptSound(specs: seq<MarkLineSpec>)
    ensures forall k :: 0 <= k < |Kept(specs)| ==>
              var i := Kept(specs)[k].specIndex;
              i.Some? && i.value < |specs| && Kept(specs)[k].spec == specs[i.value] && Visible(specs[i.value])
    decreases |specs|
  {
    if |specs| > 0 {
      var n := |specs| - 1;
      var init := specs[..n];
      KeptSound(init);
      var ks := Kept(specs);
      forall k | 0 <= k < |Kept(init)|
        ensures ks[k].specIndex.Some? && ks[k].specIndex.value < n && ks[k].spec == specs[ks[k].specIndex.value]
      {
        assert ks[k] == Kept(init)[k];
        assert init[Kept(init)[k].specIndex.value] == specs[Kept(init)[k].specIndex.value];
      }
    }
  }

  /** The indices of the kept entries increase. */
  lemma {:induction false} KeptOrdered(specs: seq<MarkLineSpec>)
    ensures forall k, l :: 0 <= k < l < |Kept(specs)| ==>
              Kept(specs)[k].specIndex.Some? && Kept(specs)[l].specIndex.Some? &&
              Kept(specs)[k].specIndex.value < Kept(specs)[l].specIndex.value
    decreases |specs|
  {
    if |specs| > 0 {
      var n := |specs| - 1;
      var init := specs[..n];
      KeptOrdered(init);
      KeptSound(init);
      var ks := Kept(specs);
      var m := |Kept(init)|;
      assert Kept(init) == ks[..m];
      forall k, l | 0 <= k < l < |ks|
        ensures ks[k].specIndex.Some? && ks[l].specIndex.Some? && ks[k].specIndex.value < ks[l].specIndex.value
      {
        assert ks[k] == Kept(init)[k];
        if l < m {
          assert ks[l] == Kept(init)[l];
        } else {
          assert ks[l].specIndex == Some(n);
        }
      }
    } else {
      assert Kept(specs) == [];
    }
  }

  /** Every visible entry of the array is kept. */
  lemma {:induction false} KeptComplete(specs: seq<MarkLineSpec>, i: nat)
    requires i < |specs| && Visible(specs[i])
    ensures exists k :: 0 <= k < |Kept(specs)| && Kept(specs)[k].specIndex == Some(i)
    decreases |specs|
  {
    var n := |specs| - 1;
    var init := specs[..n];
    var ks := Kept(specs);
    assert Kept(init) == ks[..|Kept(init)|];
    if i < n {
      assert init[i] == specs[i];
      KeptComplete(init, i);
      var k :| 0 <= k < |Kept(init)| && Kept(init)[k].specIndex == Some(i);
      assert ks[k] == Kept(init)[k];
    } else {
      assert ks[|ks| - 1].specIndex == Some(i);
    }
  }

  /** `spec.markLine || options.defaultSpec`. */
  function Chosen(chartSpec: SpecInput, defaultSpec: SpecInput): SpecInput {
    if chartSpec.NoSpec? then defaultSpec else chartSpec
  }

  /** createComponent as written: a single object with `visible: false`
      falls through to `forEach`, which an object does not have. */
  function CreateComponentAsWritten(chartSpec: SpecInput, defaultSpec: SpecInput): Created {
    match Chosen(chartSpec, defaultSpec)
    case NoSpec => NotCreated
    case Single(m) => if Visible(m) then One(Instance(m, None)) else TypeError
    case List(specs) => Many(Kept(specs))
  }

  lemma InvisibleSingleThrowsAsWritten(m: MarkLineSpec)
    requires m.visible == Some(false)
    ensures CreateComponentAsWritten(Single(m), NoSpec) == TypeError
  {
  }

  /** createComponent with a hidden single spec creating nothing. */
  function Components(chartSpec: SpecInput, defaultSpec: SpecInput): (r: Created)
    ensures r != TypeError
    ensures Chosen(chartSpec, defaultSpec).NoSpec? <==> r.NotCreated?
    ensures r.One? ==> r.instance.specIndex == None && Visible(r.instance.spec)
    ensures r != CreateComponentAsWritten(chartSpec, defaultSpec) ==>
              Chosen(chartSpec, defaultSpec).Single? && !Visible(Chosen(chartSpec, defaultSpec).spec) && r == Many([])
  {
    match Chosen(chartSpec, defaultSpec)
    case NoSpec => NotCreated
    case Single(m) => if Visible(m) then One(Instance(m, None)) else Many([])
    case List(specs) => Many(Kept(specs))
  }

  /** The loop of createComponent, pushing one instance per visible entry. */
  method CreateComponent(chartSpec: SpecInput, defaultSpec: SpecInput) returns (r: Created)
    ensures r == Components(chartSpec, defaultSpec)
  {
    var markLineSpec := if chartSpec.NoSpec? then defaultSpec else chartSpec;
    if markLineSpec.NoSpec? {
      return NotCreated;
    }
    if markLineSpec.Single? && Visible(markLineSpec.spec) {
      return One(Instance(markLineSpec.spec, None));
    }
    var specs := if markLineSpec.List? then markLineSpec.specs else [];
    var markLines: seq<Instance> := [];
    var i := 0;
    while i < |specs|
      invariant 0 <= i <= |specs|
      invariant markLines == Kept(specs[..i])
    {
      assert specs[..i + 1][..i] == specs[..i];
      if Visible(specs[i]) {
        markLines := markLines + [Instance(specs[i], Some(i))];
      }
      i := i + 1;
    }
    assert specs[..|specs|] == specs;
    return Many(markLines);
  }

  // ---------------------------------------------------------------------
  // The data pipeline

  /** Options of the two marker transforms. */
  datatype Options = AggrOptions(opts: seq<Value>) | RegrOptions(fieldX: Option<string>, fieldY: Option<string>)

  datatype Transform = Aggregate(options: Options) | Regress(options: Options)

  /** The series' view data, or a new view parsed from another view and
      transformed in order. */
  datatype DataView = SeriesView | View(source: DataView, transforms: seq<Transform>)

  /** `_processSpecX`, `_processSpecY`, `_processSpecCoo` and the series'
      x and y fields. */
  datatype Processors = Processors(
    processX: Slot<Value> -> Value, processY: Slot<Value> -> Value,
    processCoo: MarkLineSpec -> seq<Value>,
    xField: Option<string>, yField: Option<string>)

  /** `spec.process && 'x' in spec.process`, and likewise for `y` and `xy`. */
  predicate HasProcessX(spec: MarkLineSpec) { spec.process.Present? && !spec.process.value.x.Missing? }

  predicate HasProcessY(spec: MarkLineSpec) { spec.process.Present? && !spec.process.value.y.Missing? }

  predicate HasProcessXY(spec: MarkLineSpec) { spec.process.Present? && !spec.process.value.xy.Missing? }

  /** The transforms applied on top of the coordinate aggregation: `xy`
      selects regression over the series' fields, otherwise `y` over `x`;
      an aggregation is added for `x` or `y`, with whatever options were
      chosen last. */
  function ProcessTransforms(spec: MarkLineSpec, p: Processors): (ts: seq<Transform>)
    ensures |ts| <= 2
    ensures HasProcessXY(spec) ==> |ts| > 0 && ts[|ts| - 1] == Regress(RegrOptions(p.xField, p.yField))
    ensures HasProcessXY(spec) && !HasProcessX(spec) && !HasProcessY(spec) ==> ts == [Regress(RegrOptions(p.xField, p.yField))]
    ensures !HasProcessXY(spec) && HasProcessY(spec) ==> ts == [Aggregate(AggrOptions([p.processY(spec.process.value.y)]))]
    ensures !HasProcessXY(spec) && !HasProcessY(spec) && HasProcessX(spec) ==>
              ts == [Aggregate(AggrOptions([p.processX(spec.process.value.x)]))]
    ensures !HasProcessX(spec) && !HasProcessY(spec) && !HasProcessXY(spec) ==> ts == []
    ensures (HasProcessX(spec) || HasProcessY(spec)) && HasProcessXY(spec) ==>
              ts == [Aggregate(RegrOptions(p.xField, p.yField)), Regress(RegrOptions(p.xField, p.yField))]
  {
    var regr := HasProcessXY(spec);
    var aggr := HasProcessX(spec) || HasProcessY(spec);
    var options :=
      if regr then RegrOptions(p.xField, p.yField)
      else if HasProcessY(spec) then AggrOptions([p.processY(spec.process.value.y)])
      else if HasProcessX(spec) then AggrOptions([p.processX(spec.process.value.x)])
      else AggrOptions(p.processCoo(spec));
    (if aggr then [Aggregate(options)] else []) + (if regr then [Regress(options)] else [])
  }

  /** The marker data `_initDataView` builds, or None when the spec has none
      of the keys `x`, `y`, `coordinates`. */
  function Pipeline(spec: MarkLineSpec, p: Processors): (d: Option<DataView>)
    ensures d.None? <==> spec.x.Missing? && spec.y.Missing? && spec.coordinates.Missing?
    ensures !spec.x.Missing? ==> d == Some(View(SeriesView, [Aggregate(AggrOptions([p.processX(spec.x)]))]))
    ensures spec.x.Missing? && !spec.y.Missing? ==> d == Some(View(SeriesView, [Aggregate(AggrOptions([p.processY(spec.y)]))]))
    ensures spec.x.Missing? && spec.y.Missing? && !spec.coordinates.Missing? ==>
              d.value.View? && d.value.source == View(SeriesView, [Aggregate(AggrOptions(p.processCoo(spec)))])
              && d.value.transforms == ProcessTransforms(spec, p)
  {
    if spec.x.Missing? && spec.y.Missing? && spec.coordinates.Missing? then None
    else if !spec.x.Missing? then Some(View(SeriesView, [Aggregate(AggrOptions([p.processX(spec.x)]))]))
    else if !spec.y.Missing? then Some(View(SeriesView, [Aggregate(AggrOptions([p.processY(spec.y)]))]))
    else Some(View(View(SeriesView, [Aggregate(AggrOptions(p.processCoo(spec)))]), ProcessTransforms(spec, p)))
  }

  // ---------------------------------------------------------------------
  // Layout

  /** `{ minX, maxX, minY, maxY }` of the three series regions. */
  datatype ClipRange = ClipRange(minX: real, maxX: real, minY: real, maxY: real)

  datatype Rect = Rect(x: real, y: real, width: real, height: real)

  /** Four join points from getInsertPoints. */
  type JoinPoints = s: seq<Point> | |s| == 4 witness [Point(0.0, 0.0), Point(0.0, 0.0), Point(0.0, 0.0), Point(0.0, 0.0)]

  /** What xLayout and yLayout return: a non-empty list of point lists. */
  type Lines = s: seq<seq<Point>> | |s| > 0 witness [[]]

  /** The helpers `_markerLayout` calls, already bound to the marker's
      relative series, and the values it reads from elsewhere. */
  datatype Layouts = Layouts(
    xLayout: (DataView, bool) -> Lines,
    yLayout: (DataView, bool) -> Lines,
    coordinateLayout: (DataView, bool) -> seq<Point>,
    insertPoints: (Option<Point>, Option<Point>, Option<string>, real) -> JoinPoints,
    textOffset: (Option<Point>, Option<Point>, Option<string>, real) -> (real, real),
    clipRange: ClipRange,
    dataPoints: Value, seriesData: Value,
    layoutOffsetX: real, layoutOffsetY: real)

  datatype Points = Polyline(points: seq<Point>) | Segments(segments: seq<seq<Point>>)

  /** The component's attributes that `_markerLayout` writes. */
  datatype ComponentAttrs = ComponentAttrs(
    points: Points, markLabel: map<string, Value>, limitRect: Option<Rect>,
    multiSegment: Option<bool>, mainSegmentIndex: Option<int>, dx: real, dy: real)

  predicate IsXLayout(spec: MarkLineSpec) {
    spec.x.Present? || (spec.coordinates.Present? && spec.process.Present? && spec.process.value.x.Present?)
  }

  predicate IsYLayout(spec: MarkLineSpec) {
    spec.y.Present? || (spec.coordinates.Present? && spec.process.Present? && spec.process.value.y.Present?)
  }

  predicate IsCoordinateLayout(spec: MarkLineSpec) {
    spec.coordinates.Present? && (!spec.process.Present? || !spec.process.value.xy.Missing?)
  }

  /** The anchor points: x, then y, then coordinates, then positions, else none. */
  function AnchorPoints(spec: MarkLineSpec, data: DataView, env: Layouts): (r: seq<Point>)
    ensures r != [] ==> IsXLayout(spec) || IsYLayout(spec) || IsCoordinateLayout(spec) || spec.positions.Present?
  {
    var autoRange := spec.autoRange.GetOr(false);
    if IsXLayout(spec) then env.xLayout(data, autoRange)[0]
    else if IsYLayout(spec) then env.yLayout(data, autoRange)[0]
    else if IsCoordinateLayout(spec) then env.coordinateLayout(data, autoRange)
    else if spec.positions.Present? then spec.positions.value
    else []
  }

  /** The anchor modes by priority: x (also `coordinates` with `process.x`),
      then y (also `coordinates` with `process.y`), then coordinates (without
      a process, or with `process.xy`), then positions. */
  lemma AnchorModes(spec: MarkLineSpec, data: DataView, env: Layouts)
    ensures spec.x.Present? ==> AnchorPoints(spec, data, env) == env.xLayout(data, spec.autoRange.GetOr(false))[0]
    ensures !spec.x.Present? && spec.y.Present? && !(spec.coordinates.Present? && spec.process.Present? && spec.process.value.x.Present?) ==>
              AnchorPoints(spec, data, env) == env.yLayout(data, spec.autoRange.GetOr(false))[0]
    ensures spec.coordinates.Present? && spec.process.Present? && spec.process.value.x.Present? ==>
              AnchorPoints(spec, data, env) == env.xLayout(data, spec.autoRange.GetOr(false))[0]
    ensures !spec.x.Present? && !spec.y.Present? && spec.coordinates.Present? && spec.process.Present?
            && !spec.process.value.x.Present? && spec.process.value.y.Present? ==>
              AnchorPoints(spec, data, env) == env.yLayout(data, spec.autoRange.GetOr(false))[0]
    ensures !spec.x.Present? && !spec.y.Present? && spec.coordinates.Present? && !spec.process.Present? ==>
              AnchorPoints(spec, data, env) == env.coordinateLayout(data, spec.autoRange.GetOr(false))
    ensures !spec.x.Present? && !spec.y.Present? && spec.coordinates.Present? && spec.process.Present?
            && !spec.process.value.x.Present? && !spec.process.value.y.Present? && !spec.process.value.xy.Missing? ==>
              AnchorPoints(spec, data, env) == env.coordinateLayout(data, spec.autoRange.GetOr(false))
    ensures !spec.x.Present? && !spec.y.Present? && spec.coordinates.Present? && spec.process.Present?
            && !spec.process.value.x.Present? && !spec.process.value.y.Present? && spec.process.value.xy.Missing? ==>
              AnchorPoints(spec, data, env) == (if spec.positions.Present? then spec.positions.value else [])
    ensures !spec.x.Present? && !spec.y.Present? && !spec.coordinates.Present? ==>
              AnchorPoints(spec, data, env) == (if spec.positions.Present? then spec.positions.value else [])
  {
  }

  /** `limitRect`, only when clipping or confining the label. */
  function LimitRect(spec: MarkLineSpec, range: ClipRange): (r: Option<Rect>)
    ensures r.Some? <==> spec.clip.GetOr(false) || spec.labelConfine.GetOr(false)
    ensures r.Some? ==> r.value.x == range.minX && r.value.x + r.value.width == range.maxX
                        && r.value.y == range.minY && r.value.y + r.value.height == range.maxY
  {
    if spec.clip.GetOr(false) || spec.labelConfine.GetOr(false) then
      Some(Rect(range.minX, range.minY, range.maxX - range.minX, range.maxY - range.minY))
    else None
  }

  /** The label before placement: the component's label, its text replaced by
      the formatter's result when there is a formatter. */
  function LabelAttrs(componentLabel: map<string, Value>, spec: MarkLineSpec, env: Layouts): (r: map<string, Value>)
    ensures r.Keys == componentLabel.Keys + {"text"}
    ensures forall k :: k in componentLabel && k != "text" ==> r[k] == componentLabel[k]
    ensures spec.formatMethod.Some? ==> r["text"] == spec.formatMethod.value(env.dataPoints, env.seriesData)
    ensures spec.formatMethod.None? ==> r["text"] == Get(componentLabel, "text")
  {
    componentLabel + map["text" := if spec.formatMethod.Some? then spec.formatMethod.value(env.dataPoints, env.seriesData)
                                   else Get(componentLabel, "text")]
  }

  const PositionKeys: set<string> := {"position", "autoRotate", "dx", "dy", "refX", "refY"}

  /** The label pinned to the middle of the main segment. */
  function MiddlePosition(): map<string, Value> {
    map["position" := Str("middle"), "autoRotate" := Bool(false), "refX" := Num(0.0), "refY" := Num(0.0)]
  }

  /** The label at the start, shifted by the text offset, as written: the
      reference offset is written to a key `efX`. */
  function StartPositionAsWritten(offset: (real, real)): map<string, Value> {
    map["position" := Str("start"), "autoRotate" := Bool(false), "dx" := Num(offset.0), "dy" := Num(offset.1),
        "efX" := Num(0.0), "refY" := Num(0.0)]
  }

  /** The label at the start, shifted by the text offset, its reference
      offset reset. */
  function StartPosition(offset: (real, real)): map<string, Value> {
    map["position" := Str("start"), "autoRotate" := Bool(false), "dx" := Num(offset.0), "dy" := Num(offset.1),
        "refX" := Num(0.0), "refY" := Num(0.0)]
  }

  /** The fields of the component's label text style (`{}` when it has none). */
  function TextStyleOf(componentLabel: map<string, Value>): map<string, Value> {
    if "textStyle" in componentLabel && componentLabel["textStyle"].Obj? then componentLabel["textStyle"].fields else map[]
  }

  /** The step label: the label, then its placement, then a centred text style. */
  function StepLabel(labelAttrs: map<string, Value>, textStyle: map<string, Value>, position: map<string, Value>): map<string, Value> {
    labelAttrs + position + map["textStyle" := Obj(textStyle + map["textAlign" := Str("center"), "textBaseline" := Str("middle")])]
  }

  lemma TextIsNotPlaced()
    ensures "text" !in PositionKeys
  {
  }

  /** The placed label: the placement's fields win over the label's, the
      text style is the component's with the text centred. */
  lemma StepLabelFields(labelAttrs: map<string, Value>, textStyle: map<string, Value>, position: map<string, Value>)
    requires position.Keys <= PositionKeys + {"efX"}
    ensures var r := StepLabel(labelAttrs, textStyle, position);
            && (forall k :: k in position ==> k in r && r[k] == position[k])
            && (forall k :: k in labelAttrs && k !in position && k != "textStyle" ==> k in r && r[k] == labelAttrs[k])
            && "textStyle" in r && r["textStyle"].Obj?
            && "textAlign" in r["textStyle"].fields && r["textStyle"].fields["textAlign"] == Str("center")
            && "textBaseline" in r["textStyle"].fields && r["textStyle"].fields["textBaseline"] == Str("middle")
            && (forall k :: k in textStyle && k != "textAlign" && k != "textBaseline" ==>
                  k in r["textStyle"].fields && r["textStyle"].fields[k] == textStyle[k])
  {
  }

  /** As written, a start label keeps whatever reference offset it had. */
  lemma StaleRefXAsWritten()
    ensures var labelAttrs := map["refX" := Num(12.0), "text" := Str("avg")];
            && StepLabel(labelAttrs, map[], StartPositionAsWritten((3.0, 4.0)))["refX"] == Num(12.0)
            && "efX" in StepLabel(labelAttrs, map[], StartPositionAsWritten((3.0, 4.0)))
            && StepLabel(labelAttrs, map[], StartPosition((3.0, 4.0)))["refX"] == Num(0.0)
  {
    var labelAttrs := map["refX" := Num(12.0), "text" := Str("avg")];
    var w := StepLabel(labelAttrs, map[], StartPositionAsWritten((3.0, 4.0)));
    assert "refX" !in StartPositionAsWritten((3.0, 4.0));
    assert w["refX"] == labelAttrs["refX"];
  }

  predicate IsStep(spec: MarkLineSpec) { spec.markLineType == Some("type-step") }

  function MultiSegment(spec: MarkLineSpec): Option<bool> {
    if spec.line.Some? then spec.line.value.multiSegment else None
  }

  function MainSegmentIndex(spec: MarkLineSpec): Option<int> {
    if spec.line.Some? then spec.line.value.mainSegmentIndex else None
  }

  /** The three consecutive segments of the join points. */
  function ThreeSegments(j: JoinPoints): (segs: seq<seq<Point>>)
    ensures |segs| == 3
    ensures forall i :: 0 <= i < 3 ==> segs[i] == [j[i], j[i + 1]]
  {
    [[j[0], j[1]], [j[1], j[2]], [j[2], j[3]]]
  }

  /** Where a step label goes: the middle of the main segment when one is
      given on a multi-segment line, else the start shifted by the text
      offset; autoRotate is off and both reference offsets are 0 either way. */
  function Placement(spec: MarkLineSpec, points: seq<Point>, env: Layouts): (r: map<string, Value>)
    ensures r.Keys <= PositionKeys
    ensures "autoRotate" in r && r["autoRotate"] == Bool(false)
    ensures "refX" in r && r["refX"] == Num(0.0) && "refY" in r && r["refY"] == Num(0.0)
    ensures "position" in r
    ensures MultiSegment(spec).GetOr(false) && MainSegmentIndex(spec).Some? ==> r["position"] == Str("middle")
    ensures !(MultiSegment(spec).GetOr(false) && MainSegmentIndex(spec).Some?) ==>
              var offset := env.textOffset(At(points, 0), At(points, 1), spec.connectDirection, spec.expandDistance.GetOr(0.0));
              r["position"] == Str("start") && "dx" in r && r["dx"] == Num(offset.0) && "dy" in r && r["dy"] == Num(offset.1)
  {
    if MultiSegment(spec).GetOr(false) && MainSegmentIndex(spec).Some? then MiddlePosition()
    else StartPosition(env.textOffset(At(points, 0), At(points, 1), spec.connectDirection, spec.expandDistance.GetOr(0.0)))
  }

  /** The attributes `_markerLayout` hands to the component. */
  function Layout(prev: ComponentAttrs, spec: MarkLineSpec, data: DataView, env: Layouts): (r: ComponentAttrs)
    ensures r.dx == env.layoutOffsetX && r.dy == env.layoutOffsetY
    ensures r.limitRect == LimitRect(spec, env.clipRange)
    ensures !IsStep(spec) ==> r.multiSegment == prev.multiSegment && r.mainSegmentIndex == prev.mainSegmentIndex
    ensures IsStep(spec) ==> r.multiSegment == MultiSegment(spec) && r.mainSegmentIndex == MainSegmentIndex(spec)
  {
    var points := AnchorPoints(spec, data, env);
    var labelAttrs := LabelAttrs(prev.markLabel, spec, env);
    var limitRect := LimitRect(spec, env.clipRange);
    if IsStep(spec) then
      var multiSegment := MultiSegment(spec);
      var mainSegmentIndex := MainSegmentIndex(spec);
      var expandDistance := spec.expandDistance.GetOr(0.0);
      var joinPoints := env.insertPoints(At(points, 0), At(points, 1), spec.connectDirection, expandDistance);
      var position := Placement(spec, points, env);
      ComponentAttrs(
        if multiSegment.GetOr(false) then Segments(ThreeSegments(joinPoints)) else Polyline(joinPoints),
        StepLabel(labelAttrs, TextStyleOf(prev.markLabel), position),
        limitRect, multiSegment, mainSegmentIndex, env.layoutOffsetX, env.layoutOffsetY)
    else
      prev.(points := Polyline(points), markLabel := labelAttrs, limitRect := limitRect,
            dx := env.layoutOffsetX, dy := env.layoutOffsetY)
  }

  /** A plain line follows its anchor points and keeps its label but for the
      text; a step line is the join points, as one polyline or as three
      consecutive segments sharing their ends, with `expandDistance`
      defaulting to 0. */
  lemma LineGeometry(prev: ComponentAttrs, spec: MarkLineSpec, data: DataView, env: Layouts)
    ensures var r := Layout(prev, spec, data, env);
            var points := AnchorPoints(spec, data, env);
            var j := env.insertPoints(At(points, 0), At(points, 1), spec.connectDirection, spec.expandDistance.GetOr(0.0));
            && (!IsStep(spec) ==> r.points == Polyline(points) && r.markLabel == LabelAttrs(prev.markLabel, spec, env))
            && (IsStep(spec) && !MultiSegment(spec).GetOr(false) ==> r.points == Polyline(j))
            && (IsStep(spec) && MultiSegment(spec).GetOr(false) ==>
                  && r.points.Segments? && |r.points.segments| == 3
                  && r.points.segments[0][0] == j[0] && r.points.segments[2][1] == j[3]
                  && (forall i :: 0 <= i < 2 ==> r.points.segments[i][1] == r.points.segments[i + 1][0])
                  && (forall i :: 0 <= i < 3 ==> r.points.segments[i] == [j[i], j[i + 1]]))
  {
  }

  /** A step label has autoRotate off, both reference offsets 0 and a
      centred text style that keeps the component's other text-style
      fields; it sits in the middle of the main segment when one is given
      on a multi-segment line, otherwise at the start shifted by the text
      offset. Every other label field is the one before placement. */
  lemma StepLabelPlacement(prev: ComponentAttrs, spec: MarkLineSpec, data: DataView, env: Layouts)
    requires IsStep(spec)
    ensures var r := Layout(prev, spec, data, env);
            var position := Placement(spec, AnchorPoints(spec, data, env), env);
            var labelAttrs := LabelAttrs(prev.markLabel, spec, env);
            && (forall k :: k in position ==> k in r.markLabel && r.markLabel[k] == position[k])
            && "text" in r.markLabel && r.markLabel["text"] == labelAttrs["text"]
            && (forall k :: k in labelAttrs && k !in PositionKeys && k != "textStyle" ==> k in r.markLabel && r.markLabel[k] == labelAttrs[k])
            && "textStyle" in r.markLabel && r.markLabel["textStyle"].Obj?
            && "textAlign" in r.markLabel["textStyle"].fields && r.markLabel["textStyle"].fields["textAlign"] == Str("center")
            && "textBaseline" in r.markLabel["textStyle"].fields && r.markLabel["textStyle"].fields["textBaseline"] == Str("middle")
            && (forall k :: k in TextStyleOf(prev.markLabel) && k != "textAlign" && k != "textBaseline" ==>
                  k in r.markLabel["textStyle"].fields && r.markLabel["textStyle"].fields[k] == TextStyleOf(prev.markLabel)[k])
  {
    var position := Placement(spec, AnchorPoints(spec, data, env), env);
    var labelAttrs := LabelAttrs(prev.markLabel, spec, env);
    var placed := Layout(prev, spec, data, env).markLabel;
    assert placed == StepLabel(labelAttrs, TextStyleOf(prev.markLabel), position);
    StepLabelFields(labelAttrs, TextStyleOf(prev.markLabel), position);
    TextIsNotPlaced();
    forall k | k in labelAttrs && k !in PositionKeys && k != "textStyle"
      ensures k in placed && placed[k] == labelAttrs[k]
    {
      assert k !in position;
    }
  }

  // ---------------------------------------------------------------------
  // The component

  class MarkLine {
    var spec: MarkLineSpec
    var markerData: Option<DataView>
    var component: ComponentAttrs

    constructor(spec: MarkLineSpec, component: ComponentAttrs)
      ensures this.spec == spec && markerData == None && this.component == component
    {
      this.spec := spec;
      markerData := None;
      this.component := component;
    }

    /** `_initDataView`: the transform options and flags are chosen step by
        step; the marker data is left alone when the spec has none of the
        keys `x`, `y`, `coordinates`. */
    method InitDataView(p: Processors)
      modifies this
      ensures spec == old(spec) && component == old(component)
      ensures markerData == (if Pipeline(spec, p).Some? then Pipeline(spec, p) else old(markerData))
    {
      var s := spec;
      var isXProcess := !s.x.Missing?;
      var isYProcess := !s.y.Missing?;
      var isCoordinateProcess := !s.coordinates.Missing?;
      if !isXProcess && !isYProcess && !isCoordinateProcess {
        return;
      }
      var options: Options;
      var processData: DataView;
      var needAggr := false;
      var needRegr := false;
      if isXProcess {
        options := AggrOptions([p.processX(s.x)]);
        processData := SeriesView;
        needAggr := true;
      } else if isYProcess {
        options := AggrOptions([p.processY(s.y)]);
        processData := SeriesView;
        needAggr := true;
      } else {
        options := AggrOptions(p.processCoo(s));
        processData := View(SeriesView, [Aggregate(options)]);
        if HasProcessX(s) {
          options := AggrOptions([p.processX(s.process.value.x)]);
          needAggr := true;
        }
        if HasProcessY(s) {
          options := AggrOptions([p.processY(s.process.value.y)]);
          needAggr := true;
        }
        if HasProcessXY(s) {
          options := RegrOptions(p.xField, p.yField);
          needRegr := true;
        }
      }
      var transforms: seq<Transform> := [];
      if needAggr {
        transforms := transforms + [Aggregate(options)];
      }
      if needRegr {
        transforms := transforms + [Regress(options)];
      }
      assert isXProcess || isYProcess ==> transforms == [Aggregate(options)];
      assert !isXProcess && !isYProcess ==> transforms == ProcessTransforms(s, p);
      markerData := Some(View(processData, transforms));
    }

    /** `_markerLayout`, also run on every change of the marker data. */
    method MarkerLayout(env: Layouts)
      requires markerData.Some?
      modifies this
      ensures spec == old(spec) && markerData == old(markerData)
      ensures component == Layout(old(component), spec, markerData.value, env)
    {
      component := Layout(component, spec, markerData.value, env);
    }
  }
}
