/**
 * The `==`, `<=` and `>=` overloads: each picks the matching relation and delegates to a
 * builder resolver, to an anchor constraint, or builds the width/height pair of a size anchor.
 */
module Operators {
  import opened Wrappers
  import opened Anchors
  import Geometry
  import opened ConstraintBuilders

  /** The three relational operators. */
  datatype Operator = EqualOp | LessOrEqualOp | GreaterOrEqualOp

  function RelationOf(op: Operator): (r: Relation)
    ensures op == EqualOp <==> r == Equal
    ensures op == LessOrEqualOp <==> r == LessThanOrEqual
    ensures op == GreaterOrEqualOp <==> r == GreaterThanOrEqual
  {
    match op
    case EqualOp => Equal
    case LessOrEqualOp => LessThanOrEqual
    case GreaterOrEqualOp => GreaterThanOrEqual
  }

  /** `builder op Superview()`. */
  function BuilderToSuperview(b: ConstraintBuilder, op: Operator, h: Hierarchy): seq<Constraint> {
    match op
    case EqualOp => EqualTo(b, ToSuperview, h)
    case LessOrEqualOp => LessThanOrEqualTo(b, ToSuperview, h)
    case GreaterOrEqualOp => GreaterThanOrEqualTo(b, ToSuperview, h)
  }

  /** `builder op someView`: the same attributes on another view or layout guide. */
  function BuilderToItem(b: ConstraintBuilder, op: Operator, other: Item, h: Hierarchy): seq<Constraint> {
    match op
    case EqualOp => EqualTo(b, ToItem(other), h)
    case LessOrEqualOp => LessThanOrEqualTo(b, ToItem(other), h)
    case GreaterOrEqualOp => GreaterThanOrEqualTo(b, ToItem(other), h)
  }

  /** `anchor op value`. */
  function AnchorToValue(lhs: Anchor, op: Operator, value: real): Result<Constraint, AnchorError> {
    ValueConstraint(lhs, RelationOf(op), value)
  }

  /** `anchor op anchor`. */
  function AnchorToAnchor(lhs: Anchor, op: Operator, rhs: Anchor): Result<Constraint, AnchorError> {
    AnchorConstraint(lhs, RelationOf(op), rhs)
  }

  /** A width anchor and a height anchor taken together. */
  datatype SizeAnchor = SizeAnchor(width: Anchor, height: Anchor)

  /** `size op CGSize`: the width constraint, then the height constraint. */
  function SizeToSize(lhs: SizeAnchor, op: Operator, size: Geometry.Size): (r: Result<seq<Constraint>, AnchorError>)
    ensures r.Success? <==> TraitOf(lhs.width.attribute) == Dimension && TraitOf(lhs.height.attribute) == Dimension
    ensures r.Success? ==>
      r.value ==
      [ Constraint(lhs.width.item, lhs.width.attribute, RelationOf(op), None, NotAnAttribute, 1.0, size.width, Required),
        Constraint(lhs.height.item, lhs.height.attribute, RelationOf(op), None, NotAnAttribute, 1.0, size.height, Required) ]
  {
    match (AnchorToValue(lhs.width, op, size.width), AnchorToValue(lhs.height, op, size.height))
    case (Success(w), Success(hc)) => Success([w, hc])
    case (Failure(e), _) => Failure(e)
    case (_, Failure(e)) => Failure(e)
  }

  /** `size op c`: a square of side `c`. */
  function SizeToScalar(lhs: SizeAnchor, op: Operator, c: real): (r: Result<seq<Constraint>, AnchorError>)
    ensures r.Success? ==> |r.value| == 2 && r.value[0].constant == c && r.value[1].constant == c
  {
    SizeToSize(lhs, op, Geometry.Size(c, c))
  }

  /** The builder operators delegate to the resolver with the operator's relation and nothing else. */
  lemma BuilderOperatorsDelegate(b: ConstraintBuilder, op: Operator, other: Item, h: Hierarchy)
    ensures BuilderToSuperview(b, op, h) == Resolve(b, RelationOf(op), ToSuperview, h)
    ensures BuilderToItem(b, op, other, h) == Resolve(b, RelationOf(op), ToItem(other), h)
    ensures forall c :: c in BuilderToSuperview(b, op, h) ==> c.relation == RelationOf(op) && c.firstItem == b.owner
  {
    match op
    case EqualOp =>
    case LessOrEqualOp =>
    case GreaterOrEqualOp =>
  }

  /** `builder == Superview()` on a view with a superview pins each pending attribute to the superview's. */
  lemma EqualToSuperviewPins(b: ConstraintBuilder, h: Hierarchy)
    requires SuperviewOf(b.owner, h).Some?
    ensures |BuilderToSuperview(b, EqualOp, h)| == |b.pending|
    ensures forall i :: 0 <= i < |b.pending| ==>
      BuilderToSuperview(b, EqualOp, h)[i].secondItem == SuperviewOf(b.owner, h) &&
      BuilderToSuperview(b, EqualOp, h)[i].firstAttribute == BuilderToSuperview(b, EqualOp, h)[i].secondAttribute == b.pending[i].attribute
  {
    BuilderOperatorsDelegate(b, EqualOp, b.owner, h);
    ResolveToSuperview(b, Equal, h);
  }

  /** `anchor op value` succeeds only on a dimension and then makes one constant constraint. */
  lemma AnchorToValueMeaning(lhs: Anchor, op: Operator, value: real)
    ensures AnchorToValue(lhs, op, value).Success? <==> TraitOf(lhs.attribute) == Dimension
    ensures AnchorToValue(lhs, op, value).Success? ==>
      var c := AnchorToValue(lhs, op, value).value;
      c.relation == RelationOf(op) && c.secondItem.None? && c.constant == value && c.multiplier == 1.0
  {
  }

  /**
   * `anchor op anchor` succeeds exactly when the assertion accepts the pair, and then relates
   * the two anchors with the operator's relation, constant 0 and multiplier 1.
   */
  lemma AnchorToAnchorMeaning(lhs: Anchor, op: Operator, rhs: Anchor)
    ensures AnchorToAnchor(lhs, op, rhs).Success? <==> CheckAnchors(lhs, rhs).None?
    ensures AnchorToAnchor(lhs, op, rhs).Success? ==>
      var c := AnchorToAnchor(lhs, op, rhs).value;
      && c.firstItem == lhs.item && c.firstAttribute == lhs.attribute
      && c.relation == RelationOf(op) && c.secondAttribute == rhs.attribute
      && c.constant == 0.0 && c.multiplier == 1.0
  {
  }

  /** `size op c` is `size op CGSize(width: c, height: c)`. */
  lemma SizeScalarIsSquare(lhs: SizeAnchor, op: Operator, c: real)
    ensures SizeToScalar(lhs, op, c) == SizeToSize(lhs, op, Geometry.Size(c, c))
    ensures SizeToScalar(lhs, op, c).Success? <==>
      TraitOf(lhs.width.attribute) == Dimension && TraitOf(lhs.height.attribute) == Dimension
  {
  }
}
