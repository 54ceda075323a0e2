/** The single-edge builder constructors on `Anchorable` and `BaselineAnchorable`. */
module EdgeBuilders {
  import opened Anchors
  import opened ConstraintBuilders
  import opened CombinatorTable

  function Left(owner: Item, constant: real := 0.0, priority: real := Required): ConstraintBuilder {
    XAxisBuilder(owner, Attribute.Left, constant, priority)
  }

  /** The caller passes a negative constant for an inset. */
  function Right(owner: Item, constant: real := 0.0, priority: real := Required): ConstraintBuilder {
    XAxisBuilder(owner, Attribute.Right, constant, priority)
  }

  function Leading(owner: Item, constant: real := 0.0, priority: real := Required): ConstraintBuilder {
    XAxisBuilder(owner, Attribute.Leading, constant, priority)
  }

  /** The caller passes a negative constant for an inset. */
  function Trailing(owner: Item, constant: real := 0.0, priority: real := Required): ConstraintBuilder {
    XAxisBuilder(owner, Attribute.Trailing, constant, priority)
  }

  function Top(owner: Item, constant: real := 0.0, priority: real := Required): ConstraintBuilder {
    YAxisBuilder(owner, Attribute.Top, constant, priority)
  }

  /** The caller passes a negative constant for an inset. */
  function Bottom(owner: Item, constant: real := 0.0, priority: real := Required): ConstraintBuilder {
    YAxisBuilder(owner, Attribute.Bottom, constant, priority)
  }

  function CenterX(owner: Item, constant: real := 0.0, priority: real := Required): ConstraintBuilder {
    XAxisBuilder(owner, Attribute.CenterX, constant, priority)
  }

  function CenterY(owner: Item, constant: real := 0.0, priority: real := Required): ConstraintBuilder {
    YAxisBuilder(owner, Attribute.CenterY, constant, priority)
  }

  function Width(owner: Item, constant: real := 0.0, multiplier: real := 1.0, priority: real := Required): ConstraintBuilder {
    DimensionBuilder(owner, Attribute.Width, constant, multiplier, priority)
  }

  function Height(owner: Item, constant: real := 0.0, multiplier: real := 1.0, priority: real := Required): ConstraintBuilder {
    DimensionBuilder(owner, Attribute.Height, constant, multiplier, priority)
  }

  /** Only a `BaselineAnchorable` (a view) has baseline constructors. */
  function FirstBaseline(owner: Item, constant: real := 0.0, priority: real := Required): ConstraintBuilder
    requires IsBaselineAnchorable(owner)
  {
    BaselineBuilder(owner, Attribute.FirstBaseline, constant, priority)
  }

  function LastBaseline(owner: Item, constant: real := 0.0, priority: real := Required): ConstraintBuilder
    requires IsBaselineAnchorable(owner)
  {
    BaselineBuilder(owner, Attribute.LastBaseline, constant, priority)
  }

  /**
   * Each constructor makes a one-element builder for its own attribute, of the kind the
   * attribute's trait calls for, with the given constant, multiplier and priority.
   */
  lemma SingleEdgesFollowTable(owner: Item, c: real, m: real, p: real)
    ensures Left(owner, c, p) == ConstraintBuilder(owner, [Entry(Attribute.Left, c, p)])
    ensures Right(owner, c, p) == ConstraintBuilder(owner, [Entry(Attribute.Right, c, p)])
    ensures Leading(owner, c, p) == ConstraintBuilder(owner, [Entry(Attribute.Leading, c, p)])
    ensures Trailing(owner, c, p) == ConstraintBuilder(owner, [Entry(Attribute.Trailing, c, p)])
    ensures Top(owner, c, p) == ConstraintBuilder(owner, [Entry(Attribute.Top, c, p)])
    ensures Bottom(owner, c, p) == ConstraintBuilder(owner, [Entry(Attribute.Bottom, c, p)])
    ensures CenterX(owner, c, p) == ConstraintBuilder(owner, [Entry(Attribute.CenterX, c, p)])
    ensures CenterY(owner, c, p) == ConstraintBuilder(owner, [Entry(Attribute.CenterY, c, p)])
    ensures Width(owner, c, m, p) == ConstraintBuilder(owner, [Entry(Attribute.Width, c, p, m)])
    ensures Height(owner, c, m, p) == ConstraintBuilder(owner, [Entry(Attribute.Height, c, p, m)])
    ensures IsBaselineAnchorable(owner) ==>
      && FirstBaseline(owner, c, p) == ConstraintBuilder(owner, [Entry(Attribute.FirstBaseline, c, p)])
      && LastBaseline(owner, c, p) == ConstraintBuilder(owner, [Entry(Attribute.LastBaseline, c, p)])
  {
    KeyPathKinds();
  }

  /** The defaults are constant 0, multiplier 1 and `.required` priority. */
  lemma SingleEdgeDefaults(owner: Item)
    ensures Left(owner).pending == [Pending(XAxisKind, Attribute.Left, 0.0, 1.0, Required)]
    ensures Top(owner).pending == [Pending(YAxisKind, Attribute.Top, 0.0, 1.0, Required)]
    ensures Width(owner).pending == [Pending(DimensionKind, Attribute.Width, 0.0, 1.0, Required)]
  {
  }
}
