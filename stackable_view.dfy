/**
 * `StackableView`: a view to stack and the view it stands for. A bare view stands for itself;
 * each wrapper puts the view inside a new container view, pinned by constraints to it, and
 * keeps the view it stands for.
 */
module StackableViews {
  import opened Wrappers
  import opened Anchors
  import opened ConstraintBuilders
  import opened CombinatorTable
  import EdgeBuilders
  import ChainedBuilders
  import AnchorableCombinators

  /** Views by identity. */
  type ViewId = nat

  datatype StackableView = StackableView(view: ViewId, originalView: ViewId)

  /** `UIView: StackableView`: a view is its own `view` and `originalView`. */
  function Bare(v: ViewId): (r: StackableView)
    ensures r.view == v && r.originalView == v
  {
    StackableView(v, v)
  }

  /** A wrapper result: the new stackable and the constraints pinning the wrapped view into its container. */
  datatype Wrapped = Wrapped(stackable: StackableView, pins: seq<Constraint>)

  /** The hierarchy right after `container.addSubview(target)`. */
  function Inside(target: StackableView, container: ViewId): Hierarchy {
    map[target.view := container]
  }

  /**
   * `StackedView.init`: `container` is the newly created view, so it is not the wrapped one;
   * the wrapped view's `originalView` is kept.
   */
  function StackedView(target: StackableView, container: ViewId, pins: seq<Constraint>): (r: Wrapped)
    requires container != target.view
    ensures r.stackable.view == container && r.stackable.view != target.view
    ensures r.stackable.originalView == target.originalView
  {
    Wrapped(StackableView(container, target.originalView), pins)
  }

  /** `top(padding)`: horizontal edges and top pinned, bottom at most the container's. */
  function Top(target: StackableView, container: ViewId, padding: real := 0.0): Wrapped
    requires container != target.view
  {
    var v, h := View(target.view), Inside(target, container);
    StackedView(target, container,
      EqualTo(ChainedBuilders.Top(AnchorableCombinators.HorizontalEdges(v), padding), ToSuperview, h)
      + LessThanOrEqualTo(EdgeBuilders.Bottom(v), ToSuperview, h))
  }

  /** `leading(padding)`: vertical edges and leading pinned, trailing at most the container's. */
  function Leading(target: StackableView, container: ViewId, padding: real := 0.0): Wrapped
    requires container != target.view
  {
    var v, h := View(target.view), Inside(target, container);
    StackedView(target, container,
      EqualTo(ChainedBuilders.Leading(AnchorableCombinators.VerticalEdges(v), padding), ToSuperview, h)
      + LessThanOrEqualTo(EdgeBuilders.Trailing(v), ToSuperview, h))
  }

  /** `trailing(padding)`: vertical edges and trailing (−padding) pinned, leading at least the container's. */
  function Trailing(target: StackableView, container: ViewId, padding: real := 0.0): Wrapped
    requires container != target.view
  {
    var v, h := View(target.view), Inside(target, container);
    StackedView(target, container,
      EqualTo(ChainedBuilders.Trailing(AnchorableCombinators.VerticalEdges(v), -padding), ToSuperview, h)
      + GreaterThanOrEqualTo(EdgeBuilders.Leading(v), ToSuperview, h))
  }

  /** `bottom(padding)`: horizontal edges and bottom (−padding) pinned, top at least the container's. */
  function Bottom(target: StackableView, container: ViewId, padding: real := 0.0): Wrapped
    requires container != target.view
  {
    var v, h := View(target.view), Inside(target, container);
    StackedView(target, container,
      EqualTo(ChainedBuilders.Bottom(AnchorableCombinators.HorizontalEdges(v), -padding), ToSuperview, h)
      + GreaterThanOrEqualTo(EdgeBuilders.Top(v), ToSuperview, h))
  }

  /** `centered(padding)`: centred, with at least `padding` on every side. */
  function Centered(target: StackableView, container: ViewId, padding: real := 0.0): Wrapped
    requires container != target.view
  {
    var v, h := View(target.view), Inside(target, container);
    StackedView(target, container,
      EqualTo(ChainedBuilders.CenterY(EdgeBuilders.CenterX(v)), ToSuperview, h)
      + GreaterThanOrEqualTo(ChainedBuilders.Leading(EdgeBuilders.Top(v, padding), padding), ToSuperview, h)
      + LessThanOrEqualTo(ChainedBuilders.Bottom(EdgeBuilders.Trailing(v, -padding), -padding), ToSuperview, h))
  }

  /** `padding(p)`: horizontal edges inset by `p`, vertical edges flush. */
  function Padding(target: StackableView, container: ViewId, padding: real): Wrapped
    requires container != target.view
  {
    var v, h := View(target.view), Inside(target, container);
    StackedView(target, container,
      EqualTo(ChainedBuilders.VerticalEdges(AnchorableCombinators.HorizontalEdges(v, padding)), ToSuperview, h))
  }

  /** `verticalPadding(p)`: vertical edges inset by `p`, horizontal edges flush. */
  function VerticalPadding(target: StackableView, container: ViewId, padding: real): Wrapped
    requires container != target.view
  {
    var v, h := View(target.view), Inside(target, container);
    StackedView(target, container,
      EqualTo(ChainedBuilders.VerticalEdges(AnchorableCombinators.HorizontalEdges(v), padding), ToSuperview, h))
  }

  /** A constraint from `attribute` of the wrapped view to the same attribute of the container. */
  function PinTo(target: StackableView, container: ViewId, attribute: Attribute, relation: Relation, constant: real): Constraint {
    Constraint(View(target.view), attribute, relation, Some(View(container)), attribute, 1.0, constant, Required)
  }

  lemma {:induction false} PinsAgainstContainer(target: StackableView, container: ViewId, ps: seq<Pending>, relation: Relation)
    requires forall p :: p in ps ==> p.multiplier == 1.0 || p.kind != DimensionKind
    ensures var r := Resolve(ConstraintBuilder(View(target.view), ps), relation, ToSuperview, Inside(target, container));
      |r| == |ps| &&
      forall i :: 0 <= i < |ps| ==>
        r[i] == Constraint(View(target.view), ps[i].attribute, relation, Some(View(container)), ps[i].attribute, 1.0, ps[i].constant, ps[i].priority)
  {
    ResolveToSuperview(ConstraintBuilder(View(target.view), ps), relation, Inside(target, container));
  }

  /** Every wrapper keeps `originalView` and stacks a new container instead of the wrapped view. */
  lemma WrappersKeepOriginalView(target: StackableView, container: ViewId, p: real)
    requires container != target.view
    ensures forall w :: w in [Top(target, container, p), Leading(target, container, p), Trailing(target, container, p),
                             Bottom(target, container, p), Centered(target, container, p),
                             Padding(target, container, p), VerticalPadding(target, container, p)] ==>
      w.stackable.originalView == target.originalView && w.stackable.view == container && container != target.view
  {
  }

  /** `top(p)`: leading 0, trailing 0, top +p pinned equal; bottom at most the container's. */
  lemma TopPins(target: StackableView, container: ViewId, p: real)
    requires container != target.view
    ensures Top(target, container, p).pins ==
      [ PinTo(target, container, Attribute.Leading, Equal, 0.0), PinTo(target, container, Attribute.Trailing, Equal, 0.0),
        PinTo(target, container, Attribute.Top, Equal, p), PinTo(target, container, Attribute.Bottom, LessThanOrEqual, 0.0) ]
  {
    var v, h := View(target.view), Inside(target, container);
    KeyPathKinds();
    var pinned := ChainedBuilders.Top(AnchorableCombinators.HorizontalEdges(v), p);
    assert pinned == ConstraintBuilder(v, [Entry(Attribute.Leading, 0.0, Required), Entry(Attribute.Trailing, 0.0, Required), Entry(Attribute.Top, p, Required)]) by {
      HorizontalEdgesOf(v, 0.0);
      ChainedBuilders.ChainedSinglesAppend(AnchorableCombinators.HorizontalEdges(v), p, 1.0, Required);
    }
    var bounded := EdgeBuilders.Bottom(v);
    assert bounded == ConstraintBuilder(v, [Entry(Attribute.Bottom, 0.0, Required)]) by {
      EdgeBuilders.SingleEdgesFollowTable(v, 0.0, 1.0, Required);
    }
    PinTriple(target, container, Attribute.Leading, 0.0, Attribute.Trailing, 0.0, Attribute.Top, p, Equal);
    PinOne(target, container, Attribute.Bottom, 0.0, LessThanOrEqual);
    assert Top(target, container, p).pins == EqualTo(pinned, ToSuperview, h) + LessThanOrEqualTo(bounded, ToSuperview, h);
  }

  /** `leading(p)`: top 0, bottom 0, leading +p pinned equal; trailing at most the container's. */
  lemma LeadingPins(target: StackableView, container: ViewId, p: real)
    requires container != target.view
    ensures Leading(target, container, p).pins ==
      [ PinTo(target, container, Attribute.Top, Equal, 0.0), PinTo(target, container, Attribute.Bottom, Equal, 0.0),
        PinTo(target, container, Attribute.Leading, Equal, p), PinTo(target, container, Attribute.Trailing, LessThanOrEqual, 0.0) ]
  {
    var v, h := View(target.view), Inside(target, container);
    KeyPathKinds();
    var pinned := ChainedBuilders.Leading(AnchorableCombinators.VerticalEdges(v), p);
    assert pinned == ConstraintBuilder(v, [Entry(Attribute.Top, 0.0, Required), Entry(Attribute.Bottom, 0.0, Required), Entry(Attribute.Leading, p, Required)]) by {
      VerticalEdgesOf(v, 0.0);
      ChainedBuilders.ChainedSinglesAppend(AnchorableCombinators.VerticalEdges(v), p, 1.0, Required);
    }
    var bounded := EdgeBuilders.Trailing(v);
    assert bounded == ConstraintBuilder(v, [Entry(Attribute.Trailing, 0.0, Required)]) by {
      EdgeBuilders.SingleEdgesFollowTable(v, 0.0, 1.0, Required);
    }
    PinTriple(target, container, Attribute.Top, 0.0, Attribute.Bottom, 0.0, Attribute.Leading, p, Equal);
    PinOne(target, container, Attribute.Trailing, 0.0, LessThanOrEqual);
    assert Leading(target, container, p).pins == EqualTo(pinned, ToSuperview, h) + LessThanOrEqualTo(bounded, ToSuperview, h);
  }

  /** `trailing(p)`: top 0, bottom 0, trailing −p pinned equal; leading at least the container's. */
  lemma TrailingPins(target: StackableView, container: ViewId, p: real)
    requires container != target.view
    ensures Trailing(target, container, p).pins ==
      [ PinTo(target, container, Attribute.Top, Equal, 0.0), PinTo(target, container, Attribute.Bottom, Equal, 0.0),
        PinTo(target, container, Attribute.Trailing, Equal, -p), PinTo(target, container, Attribute.Leading, GreaterThanOrEqual, 0.0) ]
  {
    var v, h := View(target.view), Inside(target, container);
    KeyPathKinds();
    var pinned := ChainedBuilders.Trailing(AnchorableCombinators.VerticalEdges(v), -p);
    assert pinned == ConstraintBuilder(v, [Entry(Attribute.Top, 0.0, Required), Entry(Attribute.Bottom, 0.0, Required), Entry(Attribute.Trailing, -p, Required)]) by {
      VerticalEdgesOf(v, 0.0);
      ChainedBuilders.ChainedSinglesAppend(AnchorableCombinators.VerticalEdges(v), -p, 1.0, Required);
    }
    var bounded := EdgeBuilders.Leading(v);
    assert bounded == ConstraintBuilder(v, [Entry(Attribute.Leading, 0.0, Required)]) by {
      EdgeBuilders.SingleEdgesFollowTable(v, 0.0, 1.0, Required);
    }
    PinTriple(target, container, Attribute.Top, 0.0, Attribute.Bottom, 0.0, Attribute.Trailing, -p, Equal);
    PinOne(target, container, Attribute.Leading, 0.0, GreaterThanOrEqual);
    assert Trailing(target, container, p).pins == EqualTo(pinned, ToSuperview, h) + GreaterThanOrEqualTo(bounded, ToSuperview, h);
  }

  /** `bottom(p)`: leading 0, trailing 0, bottom −p pinned equal; top at least the container's. */
  lemma BottomPins(target: StackableView, container: ViewId, p: real)
    requires container != target.view
    ensures Bottom(target, container, p).pins ==
      [ PinTo(target, container, Attribute.Leading, Equal, 0.0), PinTo(target, container, Attribute.Trailing, Equal, 0.0),
        PinTo(target, container, Attribute.Bottom, Equal, -p), PinTo(target, container, Attribute.Top, GreaterThanOrEqual, 0.0) ]
  {
    var v, h := View(target.view), Inside(target, container);
    KeyPathKinds();
    var pinned := ChainedBuilders.Bottom(AnchorableCombinators.HorizontalEdges(v), -p);
    assert pinned == ConstraintBuilder(v, [Entry(Attribute.Leading, 0.0, Required), Entry(Attribute.Trailing, 0.0, Required), Entry(Attribute.Bottom, -p, Required)]) by {
      HorizontalEdgesOf(v, 0.0);
      ChainedBuilders.ChainedSinglesAppend(AnchorableCombinators.HorizontalEdges(v), -p, 1.0, Required);
    }
    var bounded := EdgeBuilders.Top(v);
    assert bounded == ConstraintBuilder(v, [Entry(Attribute.Top, 0.0, Required)]) by {
      EdgeBuilders.SingleEdgesFollowTable(v, 0.0, 1.0, Required);
    }
    PinTriple(target, container, Attribute.Leading, 0.0, Attribute.Trailing, 0.0, Attribute.Bottom, -p, Equal);
    PinOne(target, container, Attribute.Top, 0.0, GreaterThanOrEqual);
    assert Bottom(target, container, p).pins == EqualTo(pinned, ToSuperview, h) + GreaterThanOrEqualTo(bounded, ToSuperview, h);
  }

  /** `horizontalEdges(c)` on a view: leading +c, then trailing −c. */
  lemma HorizontalEdgesOf(v: Item, c: real)
    ensures AnchorableCombinators.HorizontalEdges(v, c) ==
      ConstraintBuilder(v, [Entry(Attribute.Leading, c, Required), Entry(Attribute.Trailing, -c, Required)])
  {
    EdgeBuilders.SingleEdgesFollowTable(v, c, 1.0, Required);
    ChainedBuilders.ChainedSinglesAppend(EdgeBuilders.Leading(v, c), -c, 1.0, Required);
  }

  /** `verticalEdges(c)` on a view: top +c, then bottom −c. */
  lemma VerticalEdgesOf(v: Item, c: real)
    ensures AnchorableCombinators.VerticalEdges(v, c) ==
      ConstraintBuilder(v, [Entry(Attribute.Top, c, Required), Entry(Attribute.Bottom, -c, Required)])
  {
    EdgeBuilders.SingleEdgesFollowTable(v, c, 1.0, Required);
    ChainedBuilders.ChainedSinglesAppend(EdgeBuilders.Top(v, c), -c, 1.0, Required);
  }

  /** One required entry on the wrapped view, resolved against the container. */
  lemma PinOne(target: StackableView, container: ViewId, a1: Attribute, c1: real, relation: Relation)
    requires KindOf(a1) != DimensionKind
    ensures Resolve(ConstraintBuilder(View(target.view), [Entry(a1, c1, Required)]), relation, ToSuperview, Inside(target, container))
         == [PinTo(target, container, a1, relation, c1)]
  {
    PinsAgainstContainer(target, container, [Entry(a1, c1, Required)], relation);
  }

  /** Two required entries on the wrapped view, resolved against the container. */
  lemma PinPair(target: StackableView, container: ViewId, a1: Attribute, c1: real, a2: Attribute, c2: real, relation: Relation)
    requires KindOf(a1) != DimensionKind && KindOf(a2) != DimensionKind
    ensures Resolve(ConstraintBuilder(View(target.view), [Entry(a1, c1, Required), Entry(a2, c2, Required)]), relation, ToSuperview, Inside(target, container))
         == [PinTo(target, container, a1, relation, c1), PinTo(target, container, a2, relation, c2)]
  {
    PinsAgainstContainer(target, container, [Entry(a1, c1, Required), Entry(a2, c2, Required)], relation);
  }

  /** Three required entries on the wrapped view, resolved against the container. */
  lemma PinTriple(target: StackableView, container: ViewId, a1: Attribute, c1: real, a2: Attribute, c2: real,
                  a3: Attribute, c3: real, relation: Relation)
    requires KindOf(a1) != DimensionKind && KindOf(a2) != DimensionKind && KindOf(a3) != DimensionKind
    ensures Resolve(ConstraintBuilder(View(target.view), [Entry(a1, c1, Required), Entry(a2, c2, Required), Entry(a3, c3, Required)]),
                    relation, ToSuperview, Inside(target, container))
         == [PinTo(target, container, a1, relation, c1), PinTo(target, container, a2, relation, c2), PinTo(target, container, a3, relation, c3)]
  {
    PinsAgainstContainer(target, container, [Entry(a1, c1, Required), Entry(a2, c2, Required), Entry(a3, c3, Required)], relation);
  }

  /** Four required entries on the wrapped view, all pinned equal to the container. */
  lemma PinQuad(target: StackableView, container: ViewId, a1: Attribute, c1: real, a2: Attribute, c2: real,
                a3: Attribute, c3: real, a4: Attribute, c4: real)
    requires KindOf(a1) != DimensionKind && KindOf(a2) != DimensionKind
    requires KindOf(a3) != DimensionKind && KindOf(a4) != DimensionKind
    ensures Resolve(ConstraintBuilder(View(target.view),
                      [Entry(a1, c1, Required), Entry(a2, c2, Required), Entry(a3, c3, Required), Entry(a4, c4, Required)]),
                    Equal, ToSuperview, Inside(target, container))
         == [PinTo(target, container, a1, Equal, c1), PinTo(target, container, a2, Equal, c2),
             PinTo(target, container, a3, Equal, c3), PinTo(target, container, a4, Equal, c4)]
  {
    PinsAgainstContainer(target, container,
      [Entry(a1, c1, Required), Entry(a2, c2, Required), Entry(a3, c3, Required), Entry(a4, c4, Required)], Equal);
  }

  /** The centring segment of `centered`: both centres pinned equal. */
  lemma CentreSegment(target: StackableView, container: ViewId)
    ensures EqualTo(ChainedBuilders.CenterY(EdgeBuilders.CenterX(View(target.view))), ToSuperview, Inside(target, container))
         == [PinTo(target, container, Attribute.CenterX, Equal, 0.0), PinTo(target, container, Attribute.CenterY, Equal, 0.0)]
  {
    var v := View(target.view);
    KeyPathKinds();
    EdgeBuilders.SingleEdgesFollowTable(v, 0.0, 1.0, Required);
    ChainedBuilders.ChainedSinglesAppend(EdgeBuilders.CenterX(v), 0.0, 1.0, Required);
    PinPair(target, container, Attribute.CenterX, 0.0, Attribute.CenterY, 0.0, Equal);
  }

  /** The lower-bound segment of `centered`: top and leading at least +p. */
  lemma TopLeadingSegment(target: StackableView, container: ViewId, p: real)
    ensures GreaterThanOrEqualTo(ChainedBuilders.Leading(EdgeBuilders.Top(View(target.view), p), p), ToSuperview, Inside(target, container))
         == [PinTo(target, container, Attribute.Top, GreaterThanOrEqual, p), PinTo(target, container, Attribute.Leading, GreaterThanOrEqual, p)]
  {
    var v := View(target.view);
    KeyPathKinds();
    EdgeBuilders.SingleEdgesFollowTable(v, p, 1.0, Required);
    ChainedBuilders.ChainedSinglesAppend(EdgeBuilders.Top(v, p), p, 1.0, Required);
    PinPair(target, container, Attribute.Top, p, Attribute.Leading, p, GreaterThanOrEqual);
  }

  /** The upper-bound segment of `centered`: trailing and bottom at most −p. */
  lemma TrailingBottomSegment(target: StackableView, container: ViewId, p: real)
    ensures LessThanOrEqualTo(ChainedBuilders.Bottom(EdgeBuilders.Trailing(View(target.view), -p), -p), ToSuperview, Inside(target, container))
         == [PinTo(target, container, Attribute.Trailing, LessThanOrEqual, -p), PinTo(target, container, Attribute.Bottom, LessThanOrEqual, -p)]
  {
    var v := View(target.view);
    KeyPathKinds();
    EdgeBuilders.SingleEdgesFollowTable(v, -p, 1.0, Required);
    ChainedBuilders.ChainedSinglesAppend(EdgeBuilders.Trailing(v, -p), -p, 1.0, Required);
    PinPair(target, container, Attribute.Trailing, -p, Attribute.Bottom, -p, LessThanOrEqual);
  }

  /** `centered(p)`: both centres equal; top and leading at least +p, trailing and bottom at most −p. */
  lemma CenteredPins(target: StackableView, container: ViewId, p: real)
    requires container != target.view
    ensures Centered(target, container, p).pins ==
      [ PinTo(target, container, Attribute.CenterX, Equal, 0.0), PinTo(target, container, Attribute.CenterY, Equal, 0.0),
        PinTo(target, container, Attribute.Top, GreaterThanOrEqual, p), PinTo(target, container, Attribute.Leading, GreaterThanOrEqual, p),
        PinTo(target, container, Attribute.Trailing, LessThanOrEqual, -p), PinTo(target, container, Attribute.Bottom, LessThanOrEqual, -p) ]
  {
    CentreSegment(target, container);
    TopLeadingSegment(target, container, p);
    TrailingBottomSegment(target, container, p);
  }

  /** `padding(p)`: leading +p and trailing −p, top and bottom flush, all pinned equal. */
  lemma PaddingPins(target: StackableView, container: ViewId, p: real)
    requires container != target.view
    ensures Padding(target, container, p).pins ==
      [ PinTo(target, container, Attribute.Leading, Equal, p), PinTo(target, container, Attribute.Trailing, Equal, -p),
        PinTo(target, container, Attribute.Top, Equal, 0.0), PinTo(target, container, Attribute.Bottom, Equal, 0.0) ]
  {
    var v := View(target.view);
    KeyPathKinds();
    var pinned := ChainedBuilders.VerticalEdges(AnchorableCombinators.HorizontalEdges(v, p));
    assert pinned == ConstraintBuilder(v, [Entry(Attribute.Leading, p, Required), Entry(Attribute.Trailing, -p, Required),
                                           Entry(Attribute.Top, 0.0, Required), Entry(Attribute.Bottom, 0.0, Required)]) by {
      HorizontalEdgesOf(v, p);
      ChainedBuilders.ChainedSinglesAppend(AnchorableCombinators.HorizontalEdges(v, p), 0.0, 1.0, Required);
      ChainedBuilders.ChainedSinglesAppend(ChainedBuilders.Top(AnchorableCombinators.HorizontalEdges(v, p)), -0.0, 1.0, Required);
    }
    PinQuad(target, container, Attribute.Leading, p, Attribute.Trailing, -p, Attribute.Top, 0.0, Attribute.Bottom, 0.0);
  }

  /** `verticalPadding(p)`: top +p and bottom −p, leading and trailing flush, all pinned equal. */
  lemma VerticalPaddingPins(target: StackableView, container: ViewId, p: real)
    requires container != target.view
    ensures VerticalPadding(target, container, p).pins ==
      [ PinTo(target, container, Attribute.Leading, Equal, 0.0), PinTo(target, container, Attribute.Trailing, Equal, 0.0),
        PinTo(target, container, Attribute.Top, Equal, p), PinTo(target, container, Attribute.Bottom, Equal, -p) ]
  {
    var v := View(target.view);
    KeyPathKinds();
    var pinned := ChainedBuilders.VerticalEdges(AnchorableCombinators.HorizontalEdges(v), p);
    assert pinned == ConstraintBuilder(v, [Entry(Attribute.Leading, 0.0, Required), Entry(Attribute.Trailing, 0.0, Required),
                                           Entry(Attribute.Top, p, Required), Entry(Attribute.Bottom, -p, Required)]) by {
      HorizontalEdgesOf(v, 0.0);
      ChainedBuilders.ChainedSinglesAppend(AnchorableCombinators.HorizontalEdges(v), p, 1.0, Required);
      ChainedBuilders.ChainedSinglesAppend(ChainedBuilders.Top(AnchorableCombinators.HorizontalEdges(v), p), -p, 1.0, Required);
    }
    PinQuad(target, container, Attribute.Leading, 0.0, Attribute.Trailing, 0.0, Attribute.Top, p, Attribute.Bottom, -p);
  }
}
