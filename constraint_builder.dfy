/**
 * `ConstraintBuilder`: pending constraints of one owner, resolved against a target
 * (another item, a typed anchor, or the owner's superview) with a relation.
 * The Swift builder stores one closure per kind of target; here the builder stores
 * the pending records and `Resolve` plays the role of all the closures at once.
 */
module ConstraintBuilders {
  import opened Wrappers
  import opened Anchors

  /** Which initialiser made a pending constraint (x axis, y axis, baseline, dimension). */
  datatype Kind = XAxisKind | YAxisKind | BaselineKind | DimensionKind

  /** One pending constraint on the owner's `attribute`. */
  datatype Pending = Pending(kind: Kind, attribute: Attribute, constant: real, multiplier: real, priority: real)

  datatype ConstraintBuilder = ConstraintBuilder(owner: Item, pending: seq<Pending>)

  /** The right-hand sides accepted by `equalTo`, `lessThanOrEqualTo` and `greaterThanOrEqualTo`. */
  datatype Target =
    | ToItem(item: Item)            // another view or layout guide, same attribute
    | ToXAxis(anchor: Anchor)       // an `NSLayoutXAxisAnchor`
    | ToYAxis(anchor: Anchor)       // an `NSLayoutYAxisAnchor`
    | ToDimension(anchor: Anchor)   // an `NSLayoutDimension`
    | ToSuperview                   // the owner's superview at resolution time

  /** The superview relation of the host view hierarchy: view id to superview id. */
  type Hierarchy = map<nat, nat>

  /** Key paths of `Anchorable` by anchor type. */
  const AnchorableXAttributes: seq<Attribute> := [Left, Right, Leading, Trailing, CenterX]
  const AnchorableYAttributes: seq<Attribute> := [Top, Bottom, CenterY]

  /** What the Swift initialisers' parameter types allow. */
  predicate PendingWellFormed(owner: Item, p: Pending) {
    match p.kind
    case XAxisKind => p.attribute in AnchorableXAttributes && p.multiplier == 1.0
    case YAxisKind => p.attribute in AnchorableYAttributes && p.multiplier == 1.0
    case BaselineKind => p.attribute in BaselineAttributes && IsBaselineAnchorable(owner) && p.multiplier == 1.0
    case DimensionKind => p.attribute in DimensionAttributes
  }

  predicate Valid(b: ConstraintBuilder) {
    forall p :: p in b.pending ==> PendingWellFormed(b.owner, p)
  }

  /** `uiView?.superview`: only a view has a superview. */
  function SuperviewOf(item: Item, h: Hierarchy): (r: Option<Item>)
    ensures r.Some? <==> item.View? && item.id in h
    ensures r.Some? ==> r.value.View?
  {
    if item.View? && item.id in h then Some(View(h[item.id])) else None
  }

  /** The host anchor API (`constraint(equalTo:...)` and friends) followed by `updatePriority`. */
  function HostConstraint(from: Anchor, relation: Relation, to: Anchor, constant: real, multiplier: real, priority: real): Constraint {
    Constraint(from.item, from.attribute, relation, Some(to.item), to.attribute, multiplier, constant, priority)
  }

  /** What the closures of one single-edge builder produce for a relation and a target. */
  function ResolveOne(owner: Item, p: Pending, relation: Relation, target: Target, h: Hierarchy): (r: seq<Constraint>)
    ensures |r| <= 1
    ensures forall c :: c in r ==> c.firstItem == owner && c.firstAttribute == p.attribute && c.relation == relation
  {
    var anchor := Anchor(owner, p.attribute);
    match target
    case ToItem(other) =>
      if p.kind == BaselineKind then
        // `(otherAnchorable as? BaselineAnchorable).map { ... }.array`
        ToSeq(if IsBaselineAnchorable(other)
              then Some(HostConstraint(anchor, relation, Anchor(other, p.attribute), p.constant, 1.0, p.priority))
              else None)
      else [HostConstraint(anchor, relation, Anchor(other, p.attribute), p.constant, 1.0, p.priority)]
    case ToXAxis(a) =>
      if p.kind == XAxisKind then [HostConstraint(anchor, relation, a, p.constant, 1.0, p.priority)] else []
    case ToYAxis(a) =>
      if p.kind == YAxisKind || p.kind == BaselineKind then [HostConstraint(anchor, relation, a, p.constant, 1.0, p.priority)] else []
    case ToDimension(a) =>
      if p.kind == DimensionKind then [HostConstraint(anchor, relation, a, p.constant, p.multiplier, p.priority)] else []
    case ToSuperview =>
      // `superview.map { ... }.array`, the superview being read when the block runs
      ToSeq(match SuperviewOf(owner, h)
            case None => None
            case Some(s) => Some(HostConstraint(anchor, relation, Anchor(s, p.attribute), p.constant, 1.0, p.priority)))
  }

  /** The pending constraints resolved one after another, in order. */
  function ResolveAll(owner: Item, ps: seq<Pending>, relation: Relation, target: Target, h: Hierarchy): (r: seq<Constraint>)
    ensures |r| <= |ps|
    ensures forall c :: c in r ==> c.firstItem == owner && c.relation == relation
  {
    if |ps| == 0 then [] else ResolveOne(owner, ps[0], relation, target, h) + ResolveAll(owner, ps[1..], relation, target, h)
  }

  function Resolve(b: ConstraintBuilder, relation: Relation, target: Target, h: Hierarchy): (r: seq<Constraint>)
    ensures |r| <= |b.pending|
    ensures forall c :: c in r ==> c.firstItem == b.owner && c.relation == relation
  {
    ResolveAll(b.owner, b.pending, relation, target, h)
  }

  /** `equalTo(_:)` and `equalToSuperview()`. */
  function EqualTo(b: ConstraintBuilder, target: Target, h: Hierarchy): (r: seq<Constraint>)
    ensures |r| <= |b.pending|
    ensures forall c :: c in r ==> c.firstItem == b.owner && c.relation == Equal
  {
    Resolve(b, Equal, target, h)
  }

  /** `lessThanOrEqualTo(_:)` and `lessThanOrEqualToSuperview()`. */
  function LessThanOrEqualTo(b: ConstraintBuilder, target: Target, h: Hierarchy): (r: seq<Constraint>)
    ensures |r| <= |b.pending|
    ensures forall c :: c in r ==> c.firstItem == b.owner && c.relation == LessThanOrEqual
  {
    Resolve(b, LessThanOrEqual, target, h)
  }

  /** `greaterThanOrEqualTo(_:)` and `greaterThanOrEqualToSuperview()`. */
  function GreaterThanOrEqualTo(b: ConstraintBuilder, target: Target, h: Hierarchy): (r: seq<Constraint>)
    ensures |r| <= |b.pending|
    ensures forall c :: c in r ==> c.firstItem == b.owner && c.relation == GreaterThanOrEqual
  {
    Resolve(b, GreaterThanOrEqual, target, h)
  }

  /** `combine(with:)`: both builders must have the same owner; the pending lists are concatenated. */
  function Combine(a: ConstraintBuilder, b: ConstraintBuilder): (r: ConstraintBuilder)
    requires a.owner == b.owner
    ensures r.owner == a.owner
    ensures r.pending == a.pending + b.pending
    ensures Valid(a) && Valid(b) ==> Valid(r)
  {
    ConstraintBuilder(a.owner, a.pending + b.pending)
  }

  /** The x-axis initialiser. */
  function XAxisBuilder(owner: Item, attribute: Attribute, constant: real := 0.0, priority: real := Required): (r: ConstraintBuilder)
    requires attribute in AnchorableXAttributes
    ensures Valid(r) && r.owner == owner && |r.pending| == 1
  {
    ConstraintBuilder(owner, [Pending(XAxisKind, attribute, constant, 1.0, priority)])
  }

  /** The y-axis initialiser. */
  function YAxisBuilder(owner: Item, attribute: Attribute, constant: real := 0.0, priority: real := Required): (r: ConstraintBuilder)
    requires attribute in AnchorableYAttributes
    ensures Valid(r) && r.owner == owner && |r.pending| == 1
  {
    ConstraintBuilder(owner, [Pending(YAxisKind, attribute, constant, 1.0, priority)])
  }

  /** The baseline initialiser, whose owner is a `BaselineAnchorable`. */
  function BaselineBuilder(owner: Item, attribute: Attribute, constant: real := 0.0, priority: real := Required): (r: ConstraintBuilder)
    requires IsBaselineAnchorable(owner) && attribute in BaselineAttributes
    ensures Valid(r) && r.owner == owner && |r.pending| == 1
  {
    ConstraintBuilder(owner, [Pending(BaselineKind, attribute, constant, 1.0, priority)])
  }

  /** The dimension initialiser. */
  function DimensionBuilder(owner: Item, attribute: Attribute, constant: real := 0.0, multiplier: real := 1.0, priority: real := Required)
    : (r: ConstraintBuilder)
    requires attribute in DimensionAttributes
    ensures Valid(r) && r.owner == owner
    ensures r.pending == [Pending(DimensionKind, attribute, constant, multiplier, priority)]
  {
    ConstraintBuilder(owner, [Pending(DimensionKind, attribute, constant, multiplier, priority)])
  }

  // ---------------------------------------------------------------------------
  // Lemmas

  lemma {:induction false} ResolveAllAppend(owner: Item, ps: seq<Pending>, qs: seq<Pending>, relation: Relation, target: Target, h: Hierarchy)
    ensures ResolveAll(owner, ps + qs, relation, target, h)
         == ResolveAll(owner, ps, relation, target, h) + ResolveAll(owner, qs, relation, target, h)
  {
    if |ps| == 0 {
      assert ps + qs == qs;
    } else {
      assert (ps + qs)[0] == ps[0];
      assert (ps + qs)[1..] == ps[1..] + qs;
      ResolveAllAppend(owner, ps[1..], qs, relation, target, h);
    }
  }

  /** For every relation and target, a combined builder yields `a`'s constraints followed by `b`'s. */
  lemma CombineResolves(a: ConstraintBuilder, b: ConstraintBuilder, relation: Relation, target: Target, h: Hierarchy)
    requires a.owner == b.owner
    ensures Resolve(Combine(a, b), relation, target, h) == Resolve(a, relation, target, h) + Resolve(b, relation, target, h)
  {
    ResolveAllAppend(a.owner, a.pending, b.pending, relation, target, h);
  }

  /** One pending constraint: the relation is passed through and nothing else depends on it. */
  lemma ResolveOneRelation(owner: Item, p: Pending, r1: Relation, r2: Relation, target: Target, h: Hierarchy)
    ensures |ResolveOne(owner, p, r2, target, h)| == |ResolveOne(owner, p, r1, target, h)|
    ensures |ResolveOne(owner, p, r1, target, h)| == 1 ==>
      ResolveOne(owner, p, r2, target, h)[0] == ResolveOne(owner, p, r1, target, h)[0].(relation := r2)
  {
  }

  /** The relation is passed through and nothing else depends on it. */
  lemma {:induction false} ResolveAllRelation(owner: Item, ps: seq<Pending>, r1: Relation, r2: Relation, target: Target, h: Hierarchy)
    ensures |ResolveAll(owner, ps, r2, target, h)| == |ResolveAll(owner, ps, r1, target, h)|
    ensures forall i :: 0 <= i < |ResolveAll(owner, ps, r1, target, h)| ==>
      ResolveAll(owner, ps, r2, target, h)[i] == ResolveAll(owner, ps, r1, target, h)[i].(relation := r2)
  {
    if |ps| > 0 {
      var head1, head2 := ResolveOne(owner, ps[0], r1, target, h), ResolveOne(owner, ps[0], r2, target, h);
      var tail1, tail2 := ResolveAll(owner, ps[1..], r1, target, h), ResolveAll(owner, ps[1..], r2, target, h);
      var all1: seq<Constraint>, all2: seq<Constraint> := head1 + tail1, head2 + tail2;
      ResolveOneRelation(owner, ps[0], r1, r2, target, h);
      ResolveAllRelation(owner, ps[1..], r1, r2, target, h);
      assert ResolveAll(owner, ps, r1, target, h) == all1;
      assert ResolveAll(owner, ps, r2, target, h) == all2;
      forall i | 0 <= i < |all1|
        ensures all2[i] == all1[i].(relation := r2)
      {
        if i < |head1| {
          assert all1[i] == head1[0] && all2[i] == head2[0];
        } else {
          assert all1[i] == tail1[i - |head1|] && all2[i] == tail2[i - |head1|];
        }
      }
    }
  }

  /** `lessThanOrEqualTo` and `greaterThanOrEqualTo` yield `equalTo`'s constraints with only the relation changed. */
  lemma RelationMethodsAgree(b: ConstraintBuilder, target: Target, h: Hierarchy)
    ensures |LessThanOrEqualTo(b, target, h)| == |EqualTo(b, target, h)| == |GreaterThanOrEqualTo(b, target, h)|
    ensures forall i :: 0 <= i < |EqualTo(b, target, h)| ==>
      && LessThanOrEqualTo(b, target, h)[i] == EqualTo(b, target, h)[i].(relation := LessThanOrEqual)
      && GreaterThanOrEqualTo(b, target, h)[i] == EqualTo(b, target, h)[i].(relation := GreaterThanOrEqual)
  {
    ResolveAllRelation(b.owner, b.pending, Equal, LessThanOrEqual, target, h);
    ResolveAllRelation(b.owner, b.pending, Equal, GreaterThanOrEqual, target, h);
  }

  /**
   * Against the superview: nothing when the owner is not a view or has no superview;
   * otherwise one constraint per pending entry, in order, to the superview's same attribute,
   * with multiplier 1.
   */
  lemma {:induction false} ResolveAllToSuperview(owner: Item, ps: seq<Pending>, relation: Relation, h: Hierarchy)
    ensures SuperviewOf(owner, h).None? ==> ResolveAll(owner, ps, relation, ToSuperview, h) == []
    ensures SuperviewOf(owner, h).Some? ==>
      var r := ResolveAll(owner, ps, relation, ToSuperview, h);
      |r| == |ps| &&
      forall i :: 0 <= i < |ps| ==>
        r[i] == Constraint(owner, ps[i].attribute, relation, SuperviewOf(owner, h), ps[i].attribute, 1.0, ps[i].constant, ps[i].priority)
  {
    if |ps| > 0 {
      ResolveAllToSuperview(owner, ps[1..], relation, h);
    }
  }

  lemma ResolveToSuperview(b: ConstraintBuilder, relation: Relation, h: Hierarchy)
    ensures SuperviewOf(b.owner, h).None? ==> Resolve(b, relation, ToSuperview, h) == []
    ensures SuperviewOf(b.owner, h).Some? ==>
      var r := Resolve(b, relation, ToSuperview, h);
      |r| == |b.pending| &&
      forall i :: 0 <= i < |b.pending| ==>
        r[i] == Constraint(b.owner, b.pending[i].attribute, relation, SuperviewOf(b.owner, h),
                           b.pending[i].attribute, 1.0, b.pending[i].constant, b.pending[i].priority)
  {
    ResolveAllToSuperview(b.owner, b.pending, relation, h);
  }

  /**
   * Against another item: one constraint per pending entry, in order, to the other item's
   * same attribute with multiplier 1, except baseline entries when the other item is a guide.
   */
  lemma {:induction false} ResolveAllToItem(owner: Item, ps: seq<Pending>, relation: Relation, other: Item, h: Hierarchy)
    requires IsBaselineAnchorable(other) || forall p :: p in ps ==> p.kind != BaselineKind
    ensures var r := ResolveAll(owner, ps, relation, ToItem(other), h);
      |r| == |ps| &&
      forall i :: 0 <= i < |ps| ==>
        r[i] == Constraint(owner, ps[i].attribute, relation, Some(other), ps[i].attribute, 1.0, ps[i].constant, ps[i].priority)
  {
    if |ps| > 0 {
      var head, tail := ResolveOne(owner, ps[0], relation, ToItem(other), h), ResolveAll(owner, ps[1..], relation, ToItem(other), h);
      assert ps[0] in ps;
      assert head == [Constraint(owner, ps[0].attribute, relation, Some(other), ps[0].attribute, 1.0, ps[0].constant, ps[0].priority)];
      assert forall p :: p in ps[1..] ==> p in ps;
      ResolveAllToItem(owner, ps[1..], relation, other, h);
      var all: seq<Constraint> := head + tail;
      assert ResolveAll(owner, ps, relation, ToItem(other), h) == all;
      forall i | 1 <= i < |ps|
        ensures all[i] == Constraint(owner, ps[i].attribute, relation, Some(other), ps[i].attribute, 1.0, ps[i].constant, ps[i].priority)
      {
        assert all[i] == tail[i - 1] && ps[i] == ps[1..][i - 1];
      }
    }
  }

  lemma ResolveToItem(b: ConstraintBuilder, relation: Relation, other: Item, h: Hierarchy)
    requires IsBaselineAnchorable(other) || forall p :: p in b.pending ==> p.kind != BaselineKind
    ensures var r := Resolve(b, relation, ToItem(other), h);
      |r| == |b.pending| &&
      forall i :: 0 <= i < |b.pending| ==>
        r[i] == Constraint(b.owner, b.pending[i].attribute, relation, Some(other), b.pending[i].attribute,
                           1.0, b.pending[i].constant, b.pending[i].priority)
  {
    ResolveAllToItem(b.owner, b.pending, relation, other, h);
  }

  /** An x-axis builder: one constraint against an item or an x anchor, none against a y anchor or a dimension. */
  lemma XAxisBuilderResolves(owner: Item, attribute: Attribute, constant: real, priority: real, relation: Relation, target: Target, h: Hierarchy)
    requires attribute in AnchorableXAttributes
    ensures var r := Resolve(XAxisBuilder(owner, attribute, constant, priority), relation, target, h);
      && (target.ToItem? ==> r == [Constraint(owner, attribute, relation, Some(target.item), attribute, 1.0, constant, priority)])
      && (target.ToXAxis? ==> r == [Constraint(owner, attribute, relation, Some(target.anchor.item), target.anchor.attribute, 1.0, constant, priority)])
      && (target.ToYAxis? || target.ToDimension? ==> r == [])
  {
  }

  /** A y-axis builder: one constraint against an item or a y anchor, none against an x anchor or a dimension. */
  lemma YAxisBuilderResolves(owner: Item, attribute: Attribute, constant: real, priority: real, relation: Relation, target: Target, h: Hierarchy)
    requires attribute in AnchorableYAttributes
    ensures var r := Resolve(YAxisBuilder(owner, attribute, constant, priority), relation, target, h);
      && (target.ToItem? ==> r == [Constraint(owner, attribute, relation, Some(target.item), attribute, 1.0, constant, priority)])
      && (target.ToYAxis? ==> r == [Constraint(owner, attribute, relation, Some(target.anchor.item), target.anchor.attribute, 1.0, constant, priority)])
      && (target.ToXAxis? || target.ToDimension? ==> r == [])
  {
  }

  /** A baseline builder yields nothing against a layout guide, one constraint against a view or a y anchor. */
  lemma BaselineBuilderResolves(owner: Item, attribute: Attribute, constant: real, priority: real, relation: Relation, target: Target, h: Hierarchy)
    requires IsBaselineAnchorable(owner) && attribute in BaselineAttributes
    ensures var r := Resolve(BaselineBuilder(owner, attribute, constant, priority), relation, target, h);
      && (target.ToItem? && !IsBaselineAnchorable(target.item) ==> r == [])
      && (target.ToItem? && IsBaselineAnchorable(target.item) ==>
            r == [Constraint(owner, attribute, relation, Some(target.item), attribute, 1.0, constant, priority)])
      && (target.ToYAxis? ==> |r| == 1)
      && (target.ToXAxis? || target.ToDimension? ==> r == [])
  {
  }

  /** A dimension builder applies its multiplier only against an explicit dimension anchor. */
  lemma DimensionBuilderResolves(owner: Item, attribute: Attribute, constant: real, multiplier: real, priority: real,
                                 relation: Relation, target: Target, h: Hierarchy)
    requires attribute in DimensionAttributes
    ensures var r := Resolve(DimensionBuilder(owner, attribute, constant, multiplier, priority), relation, target, h);
      && (target.ToDimension? ==>
            r == [Constraint(owner, attribute, relation, Some(target.anchor.item), target.anchor.attribute, multiplier, constant, priority)])
      && (target.ToItem? ==> r == [Constraint(owner, attribute, relation, Some(target.item), attribute, 1.0, constant, priority)])
      && (target.ToSuperview? && SuperviewOf(owner, h).Some? ==>
            r == [Constraint(owner, attribute, relation, SuperviewOf(owner, h), attribute, 1.0, constant, priority)])
      && (target.ToXAxis? || target.ToYAxis? ==> r == [])
  {
  }
}
