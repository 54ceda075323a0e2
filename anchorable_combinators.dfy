/**
 * The named combinators on `Anchorable`: a single-edge constructor followed by chained
 * single edges, with trailing and bottom insets negated.
 */
module AnchorableCombinators {
  import opened Anchors
  import Geometry
  import opened ConstraintBuilders
  import opened CombinatorTable
  import EdgeBuilders
  import ChainedBuilders

  function Edges(owner: Item, insets: Geometry.EdgeInsets := Geometry.ZeroInsets,
                 topPriority: real := Required, leadingPriority: real := Required,
                 trailingPriority: real := Required, bottomPriority: real := Required): ConstraintBuilder {
    ChainedBuilders.Bottom(
      ChainedBuilders.Trailing(
        ChainedBuilders.Leading(EdgeBuilders.Top(owner, insets.top, topPriority), insets.left, leadingPriority),
        -insets.right, trailingPriority),
      -insets.bottom, bottomPriority)
  }

  function EdgesScalar(owner: Item, constant: real,
                       topPriority: real := Required, leadingPriority: real := Required,
                       trailingPriority: real := Required, bottomPriority: real := Required): ConstraintBuilder {
    ChainedBuilders.Bottom(
      ChainedBuilders.Trailing(
        ChainedBuilders.Leading(EdgeBuilders.Top(owner, constant, topPriority), constant, leadingPriority),
        -constant, trailingPriority),
      -constant, bottomPriority)
  }

  function HorizontalEdges(owner: Item, constant: real := 0.0,
                           leadingPriority: real := Required, trailingPriority: real := Required): ConstraintBuilder {
    ChainedBuilders.Trailing(EdgeBuilders.Leading(owner, constant, leadingPriority), -constant, trailingPriority)
  }

  function VerticalEdges(owner: Item, constant: real := 0.0,
                         topPriority: real := Required, bottomPriority: real := Required): ConstraintBuilder {
    ChainedBuilders.Bottom(EdgeBuilders.Top(owner, constant, topPriority), -constant, bottomPriority)
  }

  function Center(owner: Item, point: Geometry.Point := Geometry.ZeroPoint,
                  centerXPriority: real := Required, centerYPriority: real := Required): ConstraintBuilder {
    ChainedBuilders.CenterY(EdgeBuilders.CenterX(owner, point.x, centerXPriority), point.y, centerYPriority)
  }

  function Size(owner: Item, size: Geometry.Size := Geometry.ZeroSize, multiplier: real := 1.0,
                widthPriority: real := Required, heightPriority: real := Required): ConstraintBuilder {
    ChainedBuilders.Height(EdgeBuilders.Width(owner, size.width, multiplier, widthPriority), size.height, multiplier, heightPriority)
  }

  /** Each named combinator on `Anchorable` expands to exactly its table rows, in order. */
  lemma AnchorableCombinatorsFollowTable(owner: Item, insets: Geometry.EdgeInsets, c: real, point: Geometry.Point,
                                         size: Geometry.Size, m: real, p1: real, p2: real, p3: real, p4: real)
    ensures Edges(owner, insets, p1, p2, p3, p4) == ConstraintBuilder(owner, EdgesEntries(insets, p1, p2, p3, p4))
    ensures EdgesScalar(owner, c, p1, p2, p3, p4) == ConstraintBuilder(owner, EdgesEntries(Uniform(c), p1, p2, p3, p4))
    ensures HorizontalEdges(owner, c, p1, p2) == ConstraintBuilder(owner, HorizontalEntries(c, p1, p2))
    ensures VerticalEdges(owner, c, p1, p2) == ConstraintBuilder(owner, VerticalEntries(c, p1, p2))
    ensures Center(owner, point, p1, p2) == ConstraintBuilder(owner, CenterEntries(point, p1, p2))
    ensures Size(owner, size, m, p1, p2) == ConstraintBuilder(owner, SizeEntries(size, m, p1, p2))
  {
    EdgeBuilders.SingleEdgesFollowTable(owner, insets.top, m, p1);
    EdgeBuilders.SingleEdgesFollowTable(owner, c, m, p1);
    EdgeBuilders.SingleEdgesFollowTable(owner, point.x, m, p1);
    EdgeBuilders.SingleEdgesFollowTable(owner, size.width, m, p1);
    ChainedBuilders.ChainedCombinatorsFollowTable(ConstraintBuilder(owner, []), insets, c, point, size, m, p1, p2, p3, p4);
    KeyPathKinds();
  }

  /** The baseline constructors of a view, and what they resolve to against another view. */
  lemma BaselinesOnViews(owner: Item, other: Item, c: real, p: real, relation: Relation, h: Hierarchy)
    requires IsBaselineAnchorable(owner) && IsBaselineAnchorable(other)
    ensures Resolve(EdgeBuilders.FirstBaseline(owner, c, p), relation, ToItem(other), h)
         == [Constraint(owner, FirstBaseline, relation, Wrappers.Some(other), FirstBaseline, 1.0, c, p)]
    ensures Resolve(EdgeBuilders.LastBaseline(owner, c, p), relation, ToItem(other), h)
         == [Constraint(owner, LastBaseline, relation, Wrappers.Some(other), LastBaseline, 1.0, c, p)]
  {
  }
}
