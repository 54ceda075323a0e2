/**
 * Layout attributes, their axis classification, the `Anchor` value (an owner and an
 * attribute) and the single constraint an anchor makes against another anchor or a
 * constant, guarded by the axis-compatibility assertion.
 */
module Anchors {
  import opened Wrappers

  /** The host's layout attributes (`NSLayoutConstraint.Attribute`). */
  datatype Attribute =
    | Left | Right | Top | Bottom | Leading | Trailing | Width | Height | CenterX | CenterY
    | LastBaseline | FirstBaseline
    | LeftMargin | RightMargin | TopMargin | BottomMargin | LeadingMargin | TrailingMargin
    | CenterXWithinMargins | CenterYWithinMargins
    | NotAnAttribute

  /** The axis class of an attribute. */
  datatype Trait = X | Y | Dimension | NoTrait

  const XAxisAttributes: seq<Attribute> :=
    [Left, Leading, Right, Trailing, CenterX, LeftMargin, LeadingMargin, RightMargin, TrailingMargin, CenterXWithinMargins]
  const YAxisAttributes: seq<Attribute> :=
    [Top, Bottom, CenterY, FirstBaseline, LastBaseline, TopMargin, BottomMargin, CenterYWithinMargins]
  const BaselineAttributes: seq<Attribute> := [FirstBaseline, LastBaseline]
  const DimensionAttributes: seq<Attribute> := [Width, Height]

  /** Something constraints can be attached to: a view or a layout guide, by identity. */
  datatype Item = View(id: nat) | Guide(id: nat)

  /** Only views have baseline anchors (`UIView: BaselineAnchorable`). */
  predicate IsBaselineAnchorable(item: Item) {
    item.View?
  }

  /** One attribute of one item. */
  datatype Anchor = Anchor(item: Item, attribute: Attribute)

  datatype Relation = Equal | LessThanOrEqual | GreaterThanOrEqual

  /** `UILayoutPriority.required`. */
  const Required: real := 1000.0

  /** A concrete layout constraint: `secondItem` is `None` when the right-hand side is a constant. */
  datatype Constraint = Constraint(
    firstItem: Item,
    firstAttribute: Attribute,
    relation: Relation,
    secondItem: Option<Item>,
    secondAttribute: Attribute,
    multiplier: real,
    constant: real,
    priority: real)

  /** The reasons the compatibility assertion fails. */
  datatype AnchorError =
    | CrossAxis(lhsTrait: Trait, rhsTrait: Trait)
    | NeedsCounterpart(lhsAxis: Trait)
    | NoStartingAnchor
    | BaselineOffView(anchor: Anchor)

  /** The axis class of an attribute, case by case; `TraitIsExactlyOne` ties it to the attribute lists. */
  function TraitOf(a: Attribute): Trait {
    match a
    case Left | Leading | Right | Trailing | CenterX
       | LeftMargin | LeadingMargin | RightMargin | TrailingMargin | CenterXWithinMargins => X
    case Top | Bottom | CenterY | FirstBaseline | LastBaseline
       | TopMargin | BottomMargin | CenterYWithinMargins => Y
    case Width | Height => Dimension
    case NotAnAttribute => NoTrait
  }

  predicate IsBaseline(a: Attribute) {
    a == FirstBaseline || a == LastBaseline
  }

  /** The x-axis list holds exactly the attributes of trait `X`. */
  lemma XAxisMembers(a: Attribute)
    ensures TraitOf(a) == X <==> a in XAxisAttributes
  {
    match a
    case Left => {} case Right => {} case Top => {} case Bottom => {}
    case Leading => {} case Trailing => {} case Width => {} case Height => {}
    case CenterX => {} case CenterY => {} case LastBaseline => {} case FirstBaseline => {}
    case LeftMargin => {} case RightMargin => {} case TopMargin => {} case BottomMargin => {}
    case LeadingMargin => {} case TrailingMargin => {}
    case CenterXWithinMargins => {} case CenterYWithinMargins => {}
    case NotAnAttribute => {}
  }

  /** The y-axis list holds exactly the attributes of trait `Y`. */
  lemma YAxisMembers(a: Attribute)
    ensures TraitOf(a) == Y <==> a in YAxisAttributes
  {
    match a
    case Left => {} case Right => {} case Top => {} case Bottom => {}
    case Leading => {} case Trailing => {} case Width => {} case Height => {}
    case CenterX => {} case CenterY => {} case LastBaseline => {} case FirstBaseline => {}
    case LeftMargin => {} case RightMargin => {} case TopMargin => {} case BottomMargin => {}
    case LeadingMargin => {} case TrailingMargin => {}
    case CenterXWithinMargins => {} case CenterYWithinMargins => {}
    case NotAnAttribute => {}
  }

  /** The dimension list holds exactly the attributes of trait `Dimension`. */
  lemma DimensionMembers(a: Attribute)
    ensures TraitOf(a) == Dimension <==> a in DimensionAttributes
  {
    match a
    case Left => {} case Right => {} case Top => {} case Bottom => {}
    case Leading => {} case Trailing => {} case Width => {} case Height => {}
    case CenterX => {} case CenterY => {} case LastBaseline => {} case FirstBaseline => {}
    case LeftMargin => {} case RightMargin => {} case TopMargin => {} case BottomMargin => {}
    case LeadingMargin => {} case TrailingMargin => {}
    case CenterXWithinMargins => {} case CenterYWithinMargins => {}
    case NotAnAttribute => {}
  }

  /** The baseline list holds exactly the two baselines. */
  lemma BaselineMembers(a: Attribute)
    ensures IsBaseline(a) <==> a in BaselineAttributes
  {
    match a
    case Left => {} case Right => {} case Top => {} case Bottom => {}
    case Leading => {} case Trailing => {} case Width => {} case Height => {}
    case CenterX => {} case CenterY => {} case LastBaseline => {} case FirstBaseline => {}
    case LeftMargin => {} case RightMargin => {} case TopMargin => {} case BottomMargin => {}
    case LeadingMargin => {} case TrailingMargin => {}
    case CenterXWithinMargins => {} case CenterYWithinMargins => {}
    case NotAnAttribute => {}
  }

  /**
   * An attribute is in exactly one of the lists (or is `notAnAttribute`), so testing the lists
   * in order, as the source does, gives the same classification as `TraitOf`.
   */
  lemma TraitIsExactlyOne(a: Attribute)
    ensures TraitOf(a) == X <==> a in XAxisAttributes
    ensures TraitOf(a) == Y <==> a in YAxisAttributes
    ensures TraitOf(a) == Dimension <==> a in DimensionAttributes
    ensures TraitOf(a) == NoTrait <==> a == NotAnAttribute
    ensures IsBaseline(a) <==> a in BaselineAttributes
    ensures IsBaseline(a) ==> TraitOf(a) == Y
  {
    XAxisMembers(a);
    YAxisMembers(a);
    DimensionMembers(a);
    BaselineMembers(a);
  }

  /** Reference table of the pairs the assertion accepts. */
  predicate Compatible(lhs: Trait, rhs: Trait) {
    (lhs == rhs && lhs != NoTrait) || (lhs == Dimension && rhs == NoTrait)
  }

  predicate BaselineOnView(a: Anchor) {
    IsBaseline(a.attribute) ==> IsBaselineAnchorable(a.item)
  }

  /** `Anchor.assertAnchors`: `None` when the assertion passes. */
  function CheckAnchors(lhs: Anchor, rhs: Anchor): Option<AnchorError> {
    match (TraitOf(lhs.attribute), TraitOf(rhs.attribute))
    case (X, X) | (Y, Y) | (Dimension, Dimension) | (Dimension, NoTrait) =>
      if !BaselineOnView(lhs) then Some(BaselineOffView(lhs))
      else if !BaselineOnView(rhs) then Some(BaselineOffView(rhs))
      else None
    case (X, Y) | (Y, X) | (X, Dimension) | (Y, Dimension) | (Dimension, X) | (Dimension, Y) =>
      Some(CrossAxis(TraitOf(lhs.attribute), TraitOf(rhs.attribute)))
    case (X, NoTrait) | (Y, NoTrait) =>
      Some(NeedsCounterpart(TraitOf(lhs.attribute)))
    case (NoTrait, _) =>
      Some(NoStartingAnchor)
  }

  /** The assertion passes exactly on the compatible trait pairs whose baselines belong to views. */
  lemma CheckAnchorsAccepts(lhs: Anchor, rhs: Anchor)
    ensures CheckAnchors(lhs, rhs).None? <==>
      Compatible(TraitOf(lhs.attribute), TraitOf(rhs.attribute)) && BaselineOnView(lhs) && BaselineOnView(rhs)
  {
  }

  /** Which failure is reported for each incompatible pair. */
  lemma CheckAnchorsRejects(lhs: Anchor, rhs: Anchor)
    ensures var (l, r) := (TraitOf(lhs.attribute), TraitOf(rhs.attribute));
      && (CheckAnchors(lhs, rhs) == Some(NoStartingAnchor) <==> l == NoTrait)
      && (CheckAnchors(lhs, rhs).Some? && CheckAnchors(lhs, rhs).value.NeedsCounterpart? <==>
            (l == X || l == Y) && r == NoTrait)
      && (CheckAnchors(lhs, rhs).Some? && CheckAnchors(lhs, rhs).value.CrossAxis? <==>
            l != NoTrait && r != NoTrait && l != r)
  {
  }

  /**
   * `Anchor.constraint(_:to:constant:multiplier:)`: the constraint relating `lhs` to `rhs`,
   * with no second item when `rhs` is `notAnAttribute`.
   */
  function AnchorConstraint(lhs: Anchor, relation: Relation, rhs: Anchor, constant: real := 0.0, multiplier: real := 1.0)
    : (r: Result<Constraint, AnchorError>)
    ensures r.Failure? <==> CheckAnchors(lhs, rhs).Some?
    ensures r.Failure? ==> r.error == CheckAnchors(lhs, rhs).value
    ensures r.Success? ==>
      && r.value.firstItem == lhs.item && r.value.firstAttribute == lhs.attribute
      && r.value.relation == relation
      && r.value.secondAttribute == rhs.attribute
      && r.value.multiplier == multiplier && r.value.constant == constant
      && r.value.priority == Required
      && (r.value.secondItem.None? <==> rhs.attribute == NotAnAttribute)
      && (r.value.secondItem.Some? ==> r.value.secondItem.value == rhs.item)
  {
    match CheckAnchors(lhs, rhs)
    case Some(e) => Failure(e)
    case None =>
      Success(Constraint(
        lhs.item, lhs.attribute, relation,
        if rhs.attribute == NotAnAttribute then None else Some(rhs.item),
        rhs.attribute, multiplier, constant, Required))
  }

  /** `Anchor.constraint(_:to:)` with a constant: a constraint against the owner's `notAnAttribute`. */
  function ValueConstraint(lhs: Anchor, relation: Relation, value: real): (r: Result<Constraint, AnchorError>)
    ensures r.Success? <==> TraitOf(lhs.attribute) == Dimension
    ensures r.Success? ==>
      r.value == Constraint(lhs.item, lhs.attribute, relation, None, NotAnAttribute, 1.0, value, Required)
  {
    AnchorConstraint(lhs, relation, Anchor(lhs.item, NotAnAttribute), value)
  }

  /** `Anchor.description`. */
  function Description(a: Attribute): string {
    match a
    case Left => "left"
    case LeftMargin => "leftMargin"
    case Right => "right"
    case RightMargin => "rightMargin"
    case Leading => "leading"
    case LeadingMargin => "leadingMargin"
    case Trailing => "trailing"
    case TrailingMargin => "trailingMargin"
    case Top => "top"
    case TopMargin => "topMargin"
    case Bottom => "bottom"
    case BottomMargin => "bottomMargin"
    case CenterX => "centerX"
    case CenterXWithinMargins => "centerXWithinMargins"
    case CenterY => "centerY"
    case CenterYWithinMargins => "centerYWithinMargins"
    case FirstBaseline => "firstBaseline"
    case LastBaseline => "lastBaseline"
    case Width => "width"
    case Height => "height"
    case NotAnAttribute => "notAnAttribute"
  }

  /** The attribute a description names, if any: the inverse of `Description`. */
  function AttributeNamed(s: string): Option<Attribute> {
    if s == "left" then Some(Left)
    else if s == "leftMargin" then Some(LeftMargin)
    else if s == "right" then Some(Right)
    else if s == "rightMargin" then Some(RightMargin)
    else if s == "leading" then Some(Leading)
    else if s == "leadingMargin" then Some(LeadingMargin)
    else if s == "trailing" then Some(Trailing)
    else if s == "trailingMargin" then Some(TrailingMargin)
    else if s == "top" then Some(Top)
    else if s == "topMargin" then Some(TopMargin)
    else if s == "bottom" then Some(Bottom)
    else if s == "bottomMargin" then Some(BottomMargin)
    else if s == "centerX" then Some(CenterX)
    else if s == "centerXWithinMargins" then Some(CenterXWithinMargins)
    else if s == "centerY" then Some(CenterY)
    else if s == "centerYWithinMargins" then Some(CenterYWithinMargins)
    else if s == "firstBaseline" then Some(FirstBaseline)
    else if s == "lastBaseline" then Some(LastBaseline)
    else if s == "width" then Some(Width)
    else if s == "height" then Some(Height)
    else if s == "notAnAttribute" then Some(NotAnAttribute)
    else None
  }

  /** Every attribute's description names it back, so descriptions are distinct. */
  lemma DescriptionRoundTrip(a: Attribute)
    ensures AttributeNamed(Description(a)) == Some(a)
  {
    match TraitOf(a)
    case X => XDescriptionsRoundTrip(a);
    case Y => YDescriptionsRoundTrip(a);
    case Dimension | NoTrait => OtherDescriptionsRoundTrip(a);
  }

  lemma XDescriptionsRoundTrip(a: Attribute)
    requires TraitOf(a) == X
    ensures AttributeNamed(Description(a)) == Some(a)
  {
    match a
    case Left => {} case LeftMargin => {} case Right => {} case RightMargin => {}
    case Leading => {} case LeadingMargin => {} case Trailing => {} case TrailingMargin => {}
    case CenterX => {} case CenterXWithinMargins => {}
  }

  lemma YDescriptionsRoundTrip(a: Attribute)
    requires TraitOf(a) == Y
    ensures AttributeNamed(Description(a)) == Some(a)
  {
    match a
    case Top => {} case TopMargin => {} case Bottom => {} case BottomMargin => {}
    case CenterY => {} case CenterYWithinMargins => {} case FirstBaseline => {} case LastBaseline => {}
  }

  lemma OtherDescriptionsRoundTrip(a: Attribute)
    requires TraitOf(a) == Dimension || TraitOf(a) == NoTrait
    ensures AttributeNamed(Description(a)) == Some(a)
  {
    match a
    case Width => {} case Height => {} case NotAnAttribute => {}
  }

  lemma DescriptionInjective(a: Attribute, b: Attribute)
    ensures Description(a) == Description(b) ==> a == b
  {
    DescriptionRoundTrip(a);
    DescriptionRoundTrip(b);
  }
}
