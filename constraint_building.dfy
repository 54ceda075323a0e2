/**
 * The `ConstraintBuilding` protocol extension: single edges route to the conformer's
 * `buildXAxis`, `buildYAxis`, `buildDimension` and `buildBaseline`, and the named combinators
 * chain them. A conformer is any choice of those four build functions; `Initialisers(owner)`
 * is the conformer whose build functions are the `ConstraintBuilder` initialisers.
 */
module BuildingProtocol {
  import opened Anchors
  import Geometry
  import opened ConstraintBuilders
  import opened CombinatorTable
  import EdgeBuilders
  import ChainedBuilders

  /** The key paths each build function accepts, as their Swift key-path types allow. */
  type XKeyPath = a: Attribute | a in AnchorableXAttributes witness Attribute.Left
  type YKeyPath = a: Attribute | a in AnchorableYAttributes witness Attribute.Top
  type DimensionKeyPath = a: Attribute | a in DimensionAttributes witness Attribute.Width
  type BaselineKeyPath = a: Attribute | a in BaselineAttributes witness Attribute.FirstBaseline

  /**
   * A conformer's four protocol requirements. `buildBaseline` is partial: the baseline edges
   * exist only where `Self: BaselineAnchorable`.
   */
  datatype Conformer = Conformer(
    buildXAxis: (XKeyPath, real, real) -> ConstraintBuilder,
    buildYAxis: (YKeyPath, real, real) -> ConstraintBuilder,
    buildDimension: (DimensionKeyPath, real, real, real) -> ConstraintBuilder,
    buildBaseline: (BaselineKeyPath, real, real) --> ConstraintBuilder)

  /** The conformer whose build functions are the `ConstraintBuilder` initialisers for `owner`. */
  function Initialisers(owner: Item): Conformer {
    Conformer(
      (a: XKeyPath, c: real, p: real) => XAxisBuilder(owner, a, c, p),
      (a: YKeyPath, c: real, p: real) => YAxisBuilder(owner, a, c, p),
      (a: DimensionKeyPath, c: real, m: real, p: real) => DimensionBuilder(owner, a, c, m, p),
      (a: BaselineKeyPath, c: real, p: real) requires IsBaselineAnchorable(owner) => BaselineBuilder(owner, a, c, p))
  }

  function Left(conf: Conformer, constant: real := 0.0, priority: real := Required): ConstraintBuilder {
    conf.buildXAxis(Attribute.Left, constant, priority)
  }

  function Right(conf: Conformer, constant: real := 0.0, priority: real := Required): ConstraintBuilder {
    conf.buildXAxis(Attribute.Right, constant, priority)
  }

  function Leading(conf: Conformer, constant: real := 0.0, priority: real := Required): ConstraintBuilder {
    conf.buildXAxis(Attribute.Leading, constant, priority)
  }

  function Trailing(conf: Conformer, constant: real := 0.0, priority: real := Required): ConstraintBuilder {
    conf.buildXAxis(Attribute.Trailing, constant, priority)
  }

  function Top(conf: Conformer, constant: real := 0.0, priority: real := Required): ConstraintBuilder {
    conf.buildYAxis(Attribute.Top, constant, priority)
  }

  function Bottom(conf: Conformer, constant: real := 0.0, priority: real := Required): ConstraintBuilder {
    conf.buildYAxis(Attribute.Bottom, constant, priority)
  }

  function CenterX(conf: Conformer, constant: real := 0.0, priority: real := Required): ConstraintBuilder {
    conf.buildXAxis(Attribute.CenterX, constant, priority)
  }

  function CenterY(conf: Conformer, constant: real := 0.0, priority: real := Required): ConstraintBuilder {
    conf.buildYAxis(Attribute.CenterY, constant, priority)
  }

  function Width(conf: Conformer, constant: real := 0.0, multiplier: real := 1.0, priority: real := Required): ConstraintBuilder {
    conf.buildDimension(Attribute.Width, constant, multiplier, priority)
  }

  function Height(conf: Conformer, constant: real := 0.0, multiplier: real := 1.0, priority: real := Required): ConstraintBuilder {
    conf.buildDimension(Attribute.Height, constant, multiplier, priority)
  }

  /** Available only when the conformer is also `BaselineAnchorable`. */
  function FirstBaseline(conf: Conformer, constant: real := 0.0, priority: real := Required): ConstraintBuilder
    requires conf.buildBaseline.requires(Attribute.FirstBaseline, constant, priority)
  {
    conf.buildBaseline(Attribute.FirstBaseline, constant, priority)
  }

  function LastBaseline(conf: Conformer, constant: real := 0.0, priority: real := Required): ConstraintBuilder
    requires conf.buildBaseline.requires(Attribute.LastBaseline, constant, priority)
  {
    conf.buildBaseline(Attribute.LastBaseline, constant, priority)
  }

  function Edges(conf: Conformer, insets: Geometry.EdgeInsets := Geometry.ZeroInsets,
                 topPriority: real := Required, leadingPriority: real := Required,
                 trailingPriority: real := Required, bottomPriority: real := Required): ConstraintBuilder {
    ChainedBuilders.Bottom(
      ChainedBuilders.Trailing(
        ChainedBuilders.Leading(Top(conf, insets.top, topPriority), insets.left, leadingPriority),
        -insets.right, trailingPriority),
      -insets.bottom, bottomPriority)
  }

  /** `edges(_:allEdgePriorities:)` with insets. */
  function EdgesAllPriorities(conf: Conformer, insets: Geometry.EdgeInsets, allEdgePriorities: real): ConstraintBuilder {
    Edges(conf, insets, allEdgePriorities, allEdgePriorities, allEdgePriorities, allEdgePriorities)
  }

  function EdgesScalar(conf: Conformer, constant: real,
                       topPriority: real := Required, leadingPriority: real := Required,
                       trailingPriority: real := Required, bottomPriority: real := Required): ConstraintBuilder {
    ChainedBuilders.Bottom(
      ChainedBuilders.Trailing(
        ChainedBuilders.Leading(Top(conf, constant, topPriority), constant, leadingPriority),
        -constant, trailingPriority),
      -constant, bottomPriority)
  }

  /** `edges(_:allEdgePriorities:)` with a scalar. */
  function EdgesScalarAllPriorities(conf: Conformer, constant: real, allEdgePriorities: real): ConstraintBuilder {
    EdgesScalar(conf, constant, allEdgePriorities, allEdgePriorities, allEdgePriorities, allEdgePriorities)
  }

  function HorizontalEdges(conf: Conformer, constant: real := 0.0,
                           leadingPriority: real := Required, trailingPriority: real := Required): ConstraintBuilder {
    ChainedBuilders.Trailing(Leading(conf, constant, leadingPriority), -constant, trailingPriority)
  }

  function VerticalEdges(conf: Conformer, constant: real := 0.0,
                         topPriority: real := Required, bottomPriority: real := Required): ConstraintBuilder {
    ChainedBuilders.Bottom(Top(conf, constant, topPriority), -constant, bottomPriority)
  }

  function Center(conf: Conformer, point: Geometry.Point := Geometry.ZeroPoint,
                  centerXPriority: real := Required, centerYPriority: real := Required): ConstraintBuilder {
    ChainedBuilders.CenterY(CenterX(conf, point.x, centerXPriority), point.y, centerYPriority)
  }

  function Size(conf: Conformer, size: Geometry.Size := Geometry.ZeroSize, multiplier: real := 1.0,
                widthPriority: real := Required, heightPriority: real := Required): ConstraintBuilder {
    ChainedBuilders.Height(Width(conf, size.width, multiplier, widthPriority), size.height, multiplier, heightPriority)
  }

  /** Each single edge of the initialiser conformer is the `Anchorable` constructor, that is, its table entry. */
  lemma SingleEdgesRoute(owner: Item, c: real, m: real, p: real)
    ensures var conf := Initialisers(owner);
      && Left(conf, c, p) == EdgeBuilders.Left(owner, c, p) == ConstraintBuilder(owner, [Entry(Attribute.Left, c, p)])
      && Right(conf, c, p) == EdgeBuilders.Right(owner, c, p) == ConstraintBuilder(owner, [Entry(Attribute.Right, c, p)])
      && Leading(conf, c, p) == EdgeBuilders.Leading(owner, c, p) == ConstraintBuilder(owner, [Entry(Attribute.Leading, c, p)])
      && Trailing(conf, c, p) == EdgeBuilders.Trailing(owner, c, p) == ConstraintBuilder(owner, [Entry(Attribute.Trailing, c, p)])
      && Top(conf, c, p) == EdgeBuilders.Top(owner, c, p) == ConstraintBuilder(owner, [Entry(Attribute.Top, c, p)])
      && Bottom(conf, c, p) == EdgeBuilders.Bottom(owner, c, p) == ConstraintBuilder(owner, [Entry(Attribute.Bottom, c, p)])
      && CenterX(conf, c, p) == EdgeBuilders.CenterX(owner, c, p) == ConstraintBuilder(owner, [Entry(Attribute.CenterX, c, p)])
      && CenterY(conf, c, p) == EdgeBuilders.CenterY(owner, c, p) == ConstraintBuilder(owner, [Entry(Attribute.CenterY, c, p)])
      && Width(conf, c, m, p) == EdgeBuilders.Width(owner, c, m, p) == ConstraintBuilder(owner, [Entry(Attribute.Width, c, p, m)])
      && Height(conf, c, m, p) == EdgeBuilders.Height(owner, c, m, p) == ConstraintBuilder(owner, [Entry(Attribute.Height, c, p, m)])
    ensures IsBaselineAnchorable(owner) ==>
      && Initialisers(owner).buildBaseline.requires(Attribute.FirstBaseline, c, p)
      && Initialisers(owner).buildBaseline.requires(Attribute.LastBaseline, c, p)
      && FirstBaseline(Initialisers(owner), c, p) == EdgeBuilders.FirstBaseline(owner, c, p)
      && LastBaseline(Initialisers(owner), c, p) == EdgeBuilders.LastBaseline(owner, c, p)
  {
    EdgeBuilders.SingleEdgesFollowTable(owner, c, m, p);
  }

  /** One chained single edge appends its table entry to `b`. */
  lemma ChainedAppend(b: ConstraintBuilder, e: Pending, r: ConstraintBuilder)
    requires r == Combine(b, ConstraintBuilder(b.owner, [e]))
    ensures r == ConstraintBuilder(b.owner, b.pending + [e])
  {
  }

  /** The three single edges `edges` chains after its top edge. */
  lemma ThreeEdges(owner: Item, left: real, right: real, bottom: real, p2: real, p3: real, p4: real)
    ensures EdgeBuilders.Leading(owner, left, p2) == ConstraintBuilder(owner, [Entry(Attribute.Leading, left, p2)])
    ensures EdgeBuilders.Trailing(owner, -right, p3) == ConstraintBuilder(owner, [Entry(Attribute.Trailing, -right, p3)])
    ensures EdgeBuilders.Bottom(owner, -bottom, p4) == ConstraintBuilder(owner, [Entry(Attribute.Bottom, -bottom, p4)])
  {
    EdgeBuilders.SingleEdgesFollowTable(owner, left, 1.0, p2);
    EdgeBuilders.SingleEdgesFollowTable(owner, -right, 1.0, p3);
    EdgeBuilders.SingleEdgesFollowTable(owner, -bottom, 1.0, p4);
  }

  /** Leading, trailing and bottom chained after a builder `t`, as `edges` does after its top edge. */
  lemma EdgesAfterTop(t: ConstraintBuilder, left: real, right: real, bottom: real, p2: real, p3: real, p4: real)
    ensures ChainedBuilders.Bottom(ChainedBuilders.Trailing(ChainedBuilders.Leading(t, left, p2), -right, p3), -bottom, p4)
      == ConstraintBuilder(t.owner, t.pending + [Entry(Attribute.Leading, left, p2), Entry(Attribute.Trailing, -right, p3),
                                                 Entry(Attribute.Bottom, -bottom, p4)])
  {
    var e1, e2, e3 := Entry(Attribute.Leading, left, p2), Entry(Attribute.Trailing, -right, p3), Entry(Attribute.Bottom, -bottom, p4);
    ThreeEdges(t.owner, left, right, bottom, p2, p3, p4);
    var b1 := ChainedBuilders.Leading(t, left, p2);
    ChainedAppend(t, e1, b1);
    var b2 := ChainedBuilders.Trailing(b1, -right, p3);
    ChainedAppend(b1, e2, b2);
    ChainedAppend(b2, e3, ChainedBuilders.Bottom(b2, -bottom, p4));
    assert t.pending + [e1] + [e2] + [e3] == t.pending + [e1, e2, e3];
  }

  /** The second edge of the two-edge combinators, chained after their first edge `t`. */
  lemma SecondEdgeAppends(t: ConstraintBuilder, c: real, point: Geometry.Point, size: Geometry.Size, m: real, p2: real)
    ensures ChainedBuilders.Trailing(t, -c, p2) == ConstraintBuilder(t.owner, t.pending + [Entry(Attribute.Trailing, -c, p2)])
    ensures ChainedBuilders.Bottom(t, -c, p2) == ConstraintBuilder(t.owner, t.pending + [Entry(Attribute.Bottom, -c, p2)])
    ensures ChainedBuilders.CenterY(t, point.y, p2) == ConstraintBuilder(t.owner, t.pending + [Entry(Attribute.CenterY, point.y, p2)])
    ensures ChainedBuilders.Height(t, size.height, m, p2)
      == ConstraintBuilder(t.owner, t.pending + [Entry(Attribute.Height, size.height, p2, m)])
  {
    ChainedBuilders.ChainedSinglesAppend(t, -c, m, p2);
    ChainedBuilders.ChainedSinglesAppend(t, point.y, m, p2);
    ChainedBuilders.ChainedSinglesAppend(t, size.height, m, p2);
  }

  /** For every conformer, `edges(insets)` is the conformer's top edge followed by the rest of the edges row. */
  lemma EdgesChainFirstEdge(conf: Conformer, insets: Geometry.EdgeInsets, p1: real, p2: real, p3: real, p4: real)
    ensures var t := Top(conf, insets.top, p1);
      Edges(conf, insets, p1, p2, p3, p4) == ConstraintBuilder(t.owner, t.pending + EdgesEntries(insets, p1, p2, p3, p4)[1..])
  {
    EdgesAfterTop(Top(conf, insets.top, p1), insets.left, insets.right, insets.bottom, p2, p3, p4);
  }

  /** For every conformer, `edges(c)` is the conformer's top edge followed by the rest of the uniform edges row. */
  lemma EdgesScalarChainFirstEdge(conf: Conformer, c: real, p1: real, p2: real, p3: real, p4: real)
    ensures var t := Top(conf, c, p1);
      EdgesScalar(conf, c, p1, p2, p3, p4) == ConstraintBuilder(t.owner, t.pending + EdgesEntries(Uniform(c), p1, p2, p3, p4)[1..])
  {
    EdgesAfterTop(Top(conf, c, p1), c, c, c, p2, p3, p4);
  }

  /**
   * For every conformer, a combinator is its first edge, built by the conformer, followed by the
   * rest of its table row, which `ConstraintBuilder`'s chained methods append for that builder's
   * owner: only the first edge of a combinator goes through the conformer's build functions.
   */
  lemma CombinatorsChainFirstEdge(conf: Conformer, insets: Geometry.EdgeInsets, c: real, point: Geometry.Point,
                                  size: Geometry.Size, m: real, p1: real, p2: real, p3: real, p4: real)
    ensures var t := Top(conf, insets.top, p1);
      Edges(conf, insets, p1, p2, p3, p4) == ConstraintBuilder(t.owner, t.pending + EdgesEntries(insets, p1, p2, p3, p4)[1..])
    ensures var t := Top(conf, c, p1);
      EdgesScalar(conf, c, p1, p2, p3, p4) == ConstraintBuilder(t.owner, t.pending + EdgesEntries(Uniform(c), p1, p2, p3, p4)[1..])
    ensures var t := Leading(conf, c, p1);
      HorizontalEdges(conf, c, p1, p2) == ConstraintBuilder(t.owner, t.pending + HorizontalEntries(c, p1, p2)[1..])
    ensures var t := Top(conf, c, p1);
      VerticalEdges(conf, c, p1, p2) == ConstraintBuilder(t.owner, t.pending + VerticalEntries(c, p1, p2)[1..])
    ensures var t := CenterX(conf, point.x, p1);
      Center(conf, point, p1, p2) == ConstraintBuilder(t.owner, t.pending + CenterEntries(point, p1, p2)[1..])
    ensures var t := Width(conf, size.width, m, p1);
      Size(conf, size, m, p1, p2) == ConstraintBuilder(t.owner, t.pending + SizeEntries(size, m, p1, p2)[1..])
  {
    EdgesChainFirstEdge(conf, insets, p1, p2, p3, p4);
    EdgesScalarChainFirstEdge(conf, c, p1, p2, p3, p4);
    SecondEdgeAppends(Leading(conf, c, p1), c, point, size, m, p2);
    SecondEdgeAppends(Top(conf, c, p1), c, point, size, m, p2);
    SecondEdgeAppends(CenterX(conf, point.x, p1), c, point, size, m, p2);
    SecondEdgeAppends(Width(conf, size.width, m, p1), c, point, size, m, p2);
  }

  /** For the initialiser conformer the protocol's named combinators expand to the same table rows as the other two files. */
  lemma ProtocolCombinatorsFollowTable(owner: Item, insets: Geometry.EdgeInsets, c: real, point: Geometry.Point,
                                       size: Geometry.Size, m: real, p1: real, p2: real, p3: real, p4: real)
    ensures Edges(Initialisers(owner), insets, p1, p2, p3, p4) == ConstraintBuilder(owner, EdgesEntries(insets, p1, p2, p3, p4))
    ensures EdgesScalar(Initialisers(owner), c, p1, p2, p3, p4) == ConstraintBuilder(owner, EdgesEntries(Uniform(c), p1, p2, p3, p4))
    ensures HorizontalEdges(Initialisers(owner), c, p1, p2) == ConstraintBuilder(owner, HorizontalEntries(c, p1, p2))
    ensures VerticalEdges(Initialisers(owner), c, p1, p2) == ConstraintBuilder(owner, VerticalEntries(c, p1, p2))
    ensures Center(Initialisers(owner), point, p1, p2) == ConstraintBuilder(owner, CenterEntries(point, p1, p2))
    ensures Size(Initialisers(owner), size, m, p1, p2) == ConstraintBuilder(owner, SizeEntries(size, m, p1, p2))
  {
    CombinatorsChainFirstEdge(Initialisers(owner), insets, c, point, size, m, p1, p2, p3, p4);
    SingleEdgesRoute(owner, insets.top, m, p1);
    SingleEdgesRoute(owner, c, m, p1);
    SingleEdgesRoute(owner, point.x, m, p1);
    SingleEdgesRoute(owner, size.width, m, p1);
    FirstThenRest(EdgesEntries(insets, p1, p2, p3, p4));
    FirstThenRest(EdgesEntries(Uniform(c), p1, p2, p3, p4));
    FirstThenRest(HorizontalEntries(c, p1, p2));
    FirstThenRest(VerticalEntries(c, p1, p2));
    FirstThenRest(CenterEntries(point, p1, p2));
    FirstThenRest(SizeEntries(size, m, p1, p2));
  }

  lemma FirstThenRest(s: seq<Pending>)
    requires |s| > 0
    ensures [s[0]] + s[1..] == s
  {
  }

  /** The `allEdgePriorities` overloads put the one priority on all four edges and change nothing else. */
  lemma AllEdgePriorities(owner: Item, insets: Geometry.EdgeInsets, c: real, p: real)
    ensures EdgesAllPriorities(Initialisers(owner), insets, p) == ConstraintBuilder(owner, EdgesEntries(insets, p, p, p, p))
    ensures EdgesScalarAllPriorities(Initialisers(owner), c, p) == ConstraintBuilder(owner, EdgesEntries(Uniform(c), p, p, p, p))
    ensures forall e :: e in EdgesAllPriorities(Initialisers(owner), insets, p).pending ==> e.priority == p
    ensures forall e :: e in EdgesScalarAllPriorities(Initialisers(owner), c, p).pending ==> e.priority == p
  {
    ProtocolCombinatorsFollowTable(owner, insets, c, Geometry.ZeroPoint, Geometry.ZeroSize, 1.0, p, p, p, p);
  }
}
