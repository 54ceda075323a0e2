/**
 * The chaining forms on `ConstraintBuilder`: `b.X(...)` is `b.combine(with: b.view.X(...))`,
 * so the receiver's pending constraints come first.
 */
module ChainedBuilders {
  import opened Anchors
  import Geometry
  import opened ConstraintBuilders
  import opened CombinatorTable
  import EdgeBuilders

  function Left(b: ConstraintBuilder, constant: real := 0.0, priority: real := Required): ConstraintBuilder {
    Combine(b, EdgeBuilders.Left(b.owner, constant, priority))
  }

  function Right(b: ConstraintBuilder, constant: real := 0.0, priority: real := Required): ConstraintBuilder {
    Combine(b, EdgeBuilders.Right(b.owner, constant, priority))
  }

  function Leading(b: ConstraintBuilder, constant: real := 0.0, priority: real := Required): ConstraintBuilder {
    Combine(b, EdgeBuilders.Leading(b.owner, constant, priority))
  }

  function Trailing(b: ConstraintBuilder, constant: real := 0.0, priority: real := Required): ConstraintBuilder {
    Combine(b, EdgeBuilders.Trailing(b.owner, constant, priority))
  }

  function Top(b: ConstraintBuilder, constant: real := 0.0, priority: real := Required): ConstraintBuilder {
    Combine(b, EdgeBuilders.Top(b.owner, constant, priority))
  }

  function Bottom(b: ConstraintBuilder, constant: real := 0.0, priority: real := Required): ConstraintBuilder {
    Combine(b, EdgeBuilders.Bottom(b.owner, constant, priority))
  }

  function CenterX(b: ConstraintBuilder, constant: real := 0.0, priority: real := Required): ConstraintBuilder {
    Combine(b, EdgeBuilders.CenterX(b.owner, constant, priority))
  }

  function CenterY(b: ConstraintBuilder, constant: real := 0.0, priority: real := Required): ConstraintBuilder {
    Combine(b, EdgeBuilders.CenterY(b.owner, constant, priority))
  }

  function Width(b: ConstraintBuilder, constant: real := 0.0, multiplier: real := 1.0, priority: real := Required): ConstraintBuilder {
    Combine(b, EdgeBuilders.Width(b.owner, constant, multiplier, priority))
  }

  function Height(b: ConstraintBuilder, constant: real := 0.0, multiplier: real := 1.0, priority: real := Required): ConstraintBuilder {
    Combine(b, EdgeBuilders.Height(b.owner, constant, multiplier, priority))
  }

  function Edges(b: ConstraintBuilder, insets: Geometry.EdgeInsets := Geometry.ZeroInsets,
                 topPriority: real := Required, leadingPriority: real := Required,
                 trailingPriority: real := Required, bottomPriority: real := Required): ConstraintBuilder {
    Bottom(Trailing(Leading(Top(b, insets.top, topPriority), insets.left, leadingPriority),
                    -insets.right, trailingPriority),
           -insets.bottom, bottomPriority)
  }

  function EdgesScalar(b: ConstraintBuilder, constant: real,
                       topPriority: real := Required, leadingPriority: real := Required,
                       trailingPriority: real := Required, bottomPriority: real := Required): ConstraintBuilder {
    Bottom(Trailing(Leading(Top(b, constant, topPriority), constant, leadingPriority), -constant, trailingPriority),
           -constant, bottomPriority)
  }

  function HorizontalEdges(b: ConstraintBuilder, constant: real := 0.0,
                           leadingPriority: real := Required, trailingPriority: real := Required): ConstraintBuilder {
    Trailing(Leading(b, constant, leadingPriority), -constant, trailingPriority)
  }

  function VerticalEdges(b: ConstraintBuilder, constant: real := 0.0,
                         topPriority: real := Required, bottomPriority: real := Required): ConstraintBuilder {
    Bottom(Top(b, constant, topPriority), -constant, bottomPriority)
  }

  function Center(b: ConstraintBuilder, point: Geometry.Point := Geometry.ZeroPoint,
                  centerXPriority: real := Required, centerYPriority: real := Required): ConstraintBuilder {
    CenterY(CenterX(b, point.x, centerXPriority), point.y, centerYPriority)
  }

  function Size(b: ConstraintBuilder, size: Geometry.Size := Geometry.ZeroSize, multiplier: real := 1.0,
                widthPriority: real := Required, heightPriority: real := Required): ConstraintBuilder {
    Height(Width(b, size.width, multiplier, widthPriority), size.height, multiplier, heightPriority)
  }

  /**
   * A layout guide has no baselines: the source raises an assertion failure there and, where
   * assertions are compiled out, returns the receiver unchanged. `BaselineAsserts` names that case.
   */
  predicate BaselineAsserts(b: ConstraintBuilder) {
    !IsBaselineAnchorable(b.owner)
  }

  function FirstBaseline(b: ConstraintBuilder, constant: real := 0.0, priority: real := Required): ConstraintBuilder {
    if IsBaselineAnchorable(b.owner) then Combine(b, EdgeBuilders.FirstBaseline(b.owner, constant, priority)) else b
  }

  function LastBaseline(b: ConstraintBuilder, constant: real := 0.0, priority: real := Required): ConstraintBuilder {
    if IsBaselineAnchorable(b.owner) then Combine(b, EdgeBuilders.LastBaseline(b.owner, constant, priority)) else b
  }

  // ---------------------------------------------------------------------------
  // Agreement with the table

  /** Every chained single edge appends its table entry after the receiver's pending constraints. */
  lemma ChainedSinglesAppend(b: ConstraintBuilder, c: real, m: real, p: real)
    ensures Left(b, c, p) == ConstraintBuilder(b.owner, b.pending + [Entry(Attribute.Left, c, p)])
    ensures Right(b, c, p) == ConstraintBuilder(b.owner, b.pending + [Entry(Attribute.Right, c, p)])
    ensures Leading(b, c, p) == ConstraintBuilder(b.owner, b.pending + [Entry(Attribute.Leading, c, p)])
    ensures Trailing(b, c, p) == ConstraintBuilder(b.owner, b.pending + [Entry(Attribute.Trailing, c, p)])
    ensures Top(b, c, p) == ConstraintBuilder(b.owner, b.pending + [Entry(Attribute.Top, c, p)])
    ensures Bottom(b, c, p) == ConstraintBuilder(b.owner, b.pending + [Entry(Attribute.Bottom, c, p)])
    ensures CenterX(b, c, p) == ConstraintBuilder(b.owner, b.pending + [Entry(Attribute.CenterX, c, p)])
    ensures CenterY(b, c, p) == ConstraintBuilder(b.owner, b.pending + [Entry(Attribute.CenterY, c, p)])
    ensures Width(b, c, m, p) == ConstraintBuilder(b.owner, b.pending + [Entry(Attribute.Width, c, p, m)])
    ensures Height(b, c, m, p) == ConstraintBuilder(b.owner, b.pending + [Entry(Attribute.Height, c, p, m)])
  {
    EdgeBuilders.SingleEdgesFollowTable(b.owner, c, m, p);
  }

  /** On a view the chained baselines append; on a layout guide they assert and return the receiver. */
  lemma BaselineFallback(b: ConstraintBuilder, c: real, p: real)
    ensures BaselineAsserts(b) ==> FirstBaseline(b, c, p) == b && LastBaseline(b, c, p) == b
    ensures !BaselineAsserts(b) ==>
      && FirstBaseline(b, c, p) == ConstraintBuilder(b.owner, b.pending + [Entry(Attribute.FirstBaseline, c, p)])
      && LastBaseline(b, c, p) == ConstraintBuilder(b.owner, b.pending + [Entry(Attribute.LastBaseline, c, p)])
  {
    if !BaselineAsserts(b) {
      EdgeBuilders.SingleEdgesFollowTable(b.owner, c, 1.0, p);
    }
  }

  /** The chained named combinators append their table rows after the receiver's pending constraints. */
  lemma ChainedCombinatorsFollowTable(b: ConstraintBuilder, insets: Geometry.EdgeInsets, c: real, point: Geometry.Point,
                                      size: Geometry.Size, m: real, p1: real, p2: real, p3: real, p4: real)
    ensures Edges(b, insets, p1, p2, p3, p4) == ConstraintBuilder(b.owner, b.pending + EdgesEntries(insets, p1, p2, p3, p4))
    ensures EdgesScalar(b, c, p1, p2, p3, p4) == ConstraintBuilder(b.owner, b.pending + EdgesEntries(Uniform(c), p1, p2, p3, p4))
    ensures HorizontalEdges(b, c, p1, p2) == ConstraintBuilder(b.owner, b.pending + HorizontalEntries(c, p1, p2))
    ensures VerticalEdges(b, c, p1, p2) == ConstraintBuilder(b.owner, b.pending + VerticalEntries(c, p1, p2))
    ensures Center(b, point, p1, p2) == ConstraintBuilder(b.owner, b.pending + CenterEntries(point, p1, p2))
    ensures Size(b, size, m, p1, p2) == ConstraintBuilder(b.owner, b.pending + SizeEntries(size, m, p1, p2))
  {
    KeyPathKinds();
    assert b.pending + [Entry(Attribute.Top, insets.top, p1)] + [Entry(Attribute.Leading, insets.left, p2)]
         + [Entry(Attribute.Trailing, -insets.right, p3)] + [Entry(Attribute.Bottom, -insets.bottom, p4)]
        == b.pending + EdgesEntries(insets, p1, p2, p3, p4);
    assert b.pending + [Entry(Attribute.Top, c, p1)] + [Entry(Attribute.Leading, c, p2)]
         + [Entry(Attribute.Trailing, -c, p3)] + [Entry(Attribute.Bottom, -c, p4)]
        == b.pending + EdgesEntries(Uniform(c), p1, p2, p3, p4);
    assert b.pending + [Entry(Attribute.Leading, c, p1)] + [Entry(Attribute.Trailing, -c, p2)]
        == b.pending + HorizontalEntries(c, p1, p2);
    assert b.pending + [Entry(Attribute.Top, c, p1)] + [Entry(Attribute.Bottom, -c, p2)]
        == b.pending + VerticalEntries(c, p1, p2);
    assert b.pending + [Entry(Attribute.CenterX, point.x, p1)] + [Entry(Attribute.CenterY, point.y, p2)]
        == b.pending + CenterEntries(point, p1, p2);
    assert b.pending + [Entry(Attribute.Width, size.width, p1, m)] + [Entry(Attribute.Height, size.height, p2, m)]
        == b.pending + SizeEntries(size, m, p1, p2);
  }
}
