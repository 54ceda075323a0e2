/**
 * The reference table of single-edge and named combinator expansions shared by
 * `Anchorable+ConstraintBuilder.swift`, `ConstraintBuilder+Implementation.swift`
 * and `ConstraintBuilding.swift`. Each of those files is proved to agree with it.
 */
module CombinatorTable {
  import opened Wrappers
  import opened Anchors
  import opened Geometry
  import opened ConstraintBuilders

  /** The builder kind follows from the anchor type behind the key path: x, baseline, other y, dimension. */
  function KindOf(attribute: Attribute): (k: Kind)
    ensures TraitOf(attribute) == X ==> k == XAxisKind
    ensures TraitOf(attribute) == Y ==> (k == BaselineKind <==> IsBaseline(attribute))
    ensures TraitOf(attribute) == Y && !IsBaseline(attribute) ==> k == YAxisKind
    ensures TraitOf(attribute) == Dimension ==> k == DimensionKind
  {
    match TraitOf(attribute)
    case X => XAxisKind
    case Y => if IsBaseline(attribute) then BaselineKind else YAxisKind
    case _ => DimensionKind
  }

  /** The kinds of the attributes that have a key path on `Anchorable` or `BaselineAnchorable`. */
  lemma KeyPathKinds()
    ensures KindOf(Left) == KindOf(Right) == KindOf(Leading) == KindOf(Trailing) == KindOf(CenterX) == XAxisKind
    ensures KindOf(Top) == KindOf(Bottom) == KindOf(CenterY) == YAxisKind
    ensures KindOf(FirstBaseline) == KindOf(LastBaseline) == BaselineKind
    ensures KindOf(Width) == KindOf(Height) == DimensionKind
  {
  }

  /** One row of the table: a pending constraint on `attribute`. */
  function Entry(attribute: Attribute, constant: real, priority: real, multiplier: real := 1.0): Pending {
    Pending(KindOf(attribute), attribute, constant, multiplier, priority)
  }

  /** `edges(insets)`: top, leading, trailing and bottom; trailing and bottom insets negated. */
  function EdgesEntries(insets: EdgeInsets, topPriority: real, leadingPriority: real, trailingPriority: real, bottomPriority: real)
    : seq<Pending>
  {
    [ Entry(Top, insets.top, topPriority),
      Entry(Leading, insets.left, leadingPriority),
      Entry(Trailing, -insets.right, trailingPriority),
      Entry(Bottom, -insets.bottom, bottomPriority) ]
  }

  /** The same inset on every edge. */
  function Uniform(constant: real): EdgeInsets {
    EdgeInsets(constant, constant, constant, constant)
  }

  /** `horizontalEdges(c)`: leading c, trailing −c. */
  function HorizontalEntries(constant: real, leadingPriority: real, trailingPriority: real): seq<Pending> {
    [Entry(Leading, constant, leadingPriority), Entry(Trailing, -constant, trailingPriority)]
  }

  /** `verticalEdges(c)`: top c, bottom −c. */
  function VerticalEntries(constant: real, topPriority: real, bottomPriority: real): seq<Pending> {
    [Entry(Top, constant, topPriority), Entry(Bottom, -constant, bottomPriority)]
  }

  /** `center(p)`: centerX p.x, centerY p.y. */
  function CenterEntries(point: Point, centerXPriority: real, centerYPriority: real): seq<Pending> {
    [Entry(CenterX, point.x, centerXPriority), Entry(CenterY, point.y, centerYPriority)]
  }

  /** `size(s, m)`: width s.width and height s.height, both with multiplier m. */
  function SizeEntries(size: Size, multiplier: real, widthPriority: real, heightPriority: real): seq<Pending> {
    [Entry(Width, size.width, widthPriority, multiplier), Entry(Height, size.height, heightPriority, multiplier)]
  }

  /** Every entry the table uses is one the builder initialisers accept. */
  lemma TableWellFormed(owner: Item, insets: EdgeInsets, c: real, point: Point, size: Size, m: real, p1: real, p2: real, p3: real, p4: real)
    ensures Valid(ConstraintBuilder(owner, EdgesEntries(insets, p1, p2, p3, p4)))
    ensures Valid(ConstraintBuilder(owner, HorizontalEntries(c, p1, p2)))
    ensures Valid(ConstraintBuilder(owner, VerticalEntries(c, p1, p2)))
    ensures Valid(ConstraintBuilder(owner, CenterEntries(point, p1, p2)))
    ensures Valid(ConstraintBuilder(owner, SizeEntries(size, m, p1, p2)))
  {
    KeyPathKinds();
  }

  /**
   * `edges(insets)` resolved against the superview of a view: four constraints, in order,
   * top = insets.top, leading = insets.left, trailing = −insets.right, bottom = −insets.bottom,
   * each to the same attribute of the superview with its own priority.
   */
  lemma EdgesToSuperview(owner: Item, insets: EdgeInsets, tp: real, lp: real, trp: real, bp: real, relation: Relation, h: Hierarchy)
    requires SuperviewOf(owner, h).Some?
    ensures var s := SuperviewOf(owner, h);
      Resolve(ConstraintBuilder(owner, EdgesEntries(insets, tp, lp, trp, bp)), relation, ToSuperview, h) ==
      [ Constraint(owner, Top, relation, s, Top, 1.0, insets.top, tp),
        Constraint(owner, Leading, relation, s, Leading, 1.0, insets.left, lp),
        Constraint(owner, Trailing, relation, s, Trailing, 1.0, -insets.right, trp),
        Constraint(owner, Bottom, relation, s, Bottom, 1.0, -insets.bottom, bp) ]
  {
    KeyPathKinds();
    ResolveToSuperview(ConstraintBuilder(owner, EdgesEntries(insets, tp, lp, trp, bp)), relation, h);
  }

  /** `size(s, m)` resolved against a dimension anchor keeps the shared multiplier on both constraints. */
  lemma SizeToDimension(owner: Item, size: Size, m: real, wp: real, hp: real, relation: Relation, other: Anchor, h: Hierarchy)
    ensures Resolve(ConstraintBuilder(owner, SizeEntries(size, m, wp, hp)), relation, ToDimension(other), h) ==
      [ Constraint(owner, Width, relation, Some(other.item), other.attribute, m, size.width, wp),
        Constraint(owner, Height, relation, Some(other.item), other.attribute, m, size.height, hp) ]
  {
    KeyPathKinds();
    var entries := SizeEntries(size, m, wp, hp);
    assert ResolveAll(owner, entries[1..], relation, ToDimension(other), h)
        == ResolveOne(owner, entries[1], relation, ToDimension(other), h);
  }
}
