/**
 * `Constrainable`: a constraint, a list of constraints, or a `Configure`/`Collect` result,
 * and the in-place updates of the constants and priorities of its constraints.
 */
module Constrainables {
  import opened Wrappers
  import opened Anchors
  import opened Geometry
  import ConstraintBuilders
  import CombinatorTable

  /** A host constraint object: its identity is fixed, its constant and priority can be changed. */
  class LayoutConstraint {
    const firstItem: Item
    const firstAttribute: Attribute
    const relation: Relation
    const secondItem: Option<Item>
    const secondAttribute: Attribute
    const multiplier: real
    var constant: real
    var priority: real

    /** The host creates a constraint object from a constraint description. */
    constructor (c: Constraint)
      ensures Value() == c
    {
      firstItem, firstAttribute, relation := c.firstItem, c.firstAttribute, c.relation;
      secondItem, secondAttribute, multiplier := c.secondItem, c.secondAttribute, c.multiplier;
      constant, priority := c.constant, c.priority;
    }

    function Value(): Constraint
      reads this
    {
      Constraint(firstItem, firstAttribute, relation, secondItem, secondAttribute, multiplier, constant, priority)
    }

    /** The body of the `constraint(for:update:)` closures: sets the field the edit names. */
    method ApplyEdit(e: Edit)
      modifies this
      ensures Value() == Edited(old(Value()), e)
    {
      match e {
        case SetConstant(v) => constant := v;
        case SetPriority(p) => priority := p;
      }
    }

    /** The body of the `withEach` closures: applies the update to this constraint. */
    method ApplyUpdate(u: Update)
      modifies this
      ensures Value() == Updated(old(Value()), u)
    {
      match u {
        case EdgeConstants(insets) =>
          match EdgeConstant(firstAttribute, insets) {
            case None =>
            case Some(v) => constant := v;
          }
        case AllPriorities(p) =>
          priority := p;
      }
    }
  }

  /** The current values of a list of constraint objects. */
  function Values(cs: seq<LayoutConstraint>): (vs: seq<Constraint>)
    reads cs
    ensures |vs| == |cs|
    ensures forall i :: 0 <= i < |cs| ==> vs[i] == cs[i].Value()
  {
    seq(|cs|, i requires 0 <= i < |cs| reads cs => cs[i].Value())
  }

  /** The conformers of `Constrainable`. */
  datatype Constrainable =
    | Single(constraint: LayoutConstraint)     // `NSLayoutConstraint`
    | List(items: seq<LayoutConstraint>)       // `[NSLayoutConstraint]`
    | Configured                               // `Configure`
    | Collected(collected: seq<LayoutConstraint>) // `Collect`

  /** `constraints`: a single constraint is `[self]`, a list is itself. */
  function Constraints(x: Constrainable): (r: seq<LayoutConstraint>)
    ensures x.Single? ==> r == [x.constraint]
    ensures x.List? ==> r == x.items
    ensures x.Configured? ==> r == []
    ensures x.Collected? ==> r == x.collected
  {
    match x
    case Single(c) => [c]
    case List(cs) => cs
    case Configured => []
    case Collected(cs) => cs
  }

  // ---------------------------------------------------------------------------
  // Storage

  /** The position of the first constraint on `attribute`, if any. */
  function FirstIndexWith(cs: seq<LayoutConstraint>, attribute: Attribute): (r: Option<nat>)
    ensures r.Some? ==> r.value < |cs| && cs[r.value].firstAttribute == attribute
    ensures r.Some? ==> forall j :: 0 <= j < r.value ==> cs[j].firstAttribute != attribute
    ensures r.None? <==> forall j :: 0 <= j < |cs| ==> cs[j].firstAttribute != attribute
  {
    if |cs| == 0 then None
    else if cs[0].firstAttribute == attribute then Some(0)
    else match FirstIndexWith(cs[1..], attribute)
      case None => None
      case Some(i) => Some(i + 1)
  }

  /** `constraints.first { $0.firstAttribute == attribute }`. */
  function FirstWith(cs: seq<LayoutConstraint>, attribute: Attribute): (r: Option<LayoutConstraint>)
    ensures r.Some? ==> r.value in cs && r.value.firstAttribute == attribute
    ensures r.Some? ==>
      exists i :: 0 <= i < |cs| && cs[i] == r.value && forall j :: 0 <= j < i ==> cs[j].firstAttribute != attribute
    ensures r.None? <==> forall c :: c in cs ==> c.firstAttribute != attribute
  {
    match FirstIndexWith(cs, attribute)
    case None => None
    case Some(i) => Some(cs[i])
  }

  /** `NSLayoutConstraint.store(in: &optional)`. */
  method StoreConstraint(c: LayoutConstraint) returns (r: LayoutConstraint, output: Option<LayoutConstraint>)
    ensures r == c && output == Some(c)
  {
    output := Some(c);
    r := c;
  }

  /** `store(in: &array)`: the output is exactly `constraints`; the receiver is returned. */
  method StoreAll(x: Constrainable) returns (r: Constrainable, output: seq<LayoutConstraint>)
    ensures r == x
    ensures output == Constraints(x)
  {
    output := Constraints(x);
    r := x;
  }

  /** `store(attribute, in: &optional)`: the first constraint on `attribute`, or nil. */
  method StoreAttribute(x: Constrainable, attribute: Attribute) returns (r: Constrainable, output: Option<LayoutConstraint>)
    ensures r == x
    ensures output.Some? ==> output.value in Constraints(x) && output.value.firstAttribute == attribute
    ensures output.Some? ==>
      exists i :: 0 <= i < |Constraints(x)| && Constraints(x)[i] == output.value &&
        forall j :: 0 <= j < i ==> Constraints(x)[j].firstAttribute != attribute
    ensures output.None? <==> forall c :: c in Constraints(x) ==> c.firstAttribute != attribute
  {
    output := FirstWith(Constraints(x), attribute);
    r := x;
  }

  // ---------------------------------------------------------------------------
  // Updates: value-level specification

  /** The two edits `constraint(for:update:)` is called with. */
  datatype Edit = SetConstant(constant: real) | SetPriority(priority: real)

  /** The edit changes its own field and nothing else. */
  function Edited(c: Constraint, e: Edit): (r: Constraint)
    ensures r.constant == (if e.SetConstant? then e.constant else c.constant)
    ensures r.priority == (if e.SetPriority? then e.priority else c.priority)
    ensures r.(constant := c.constant, priority := c.priority) == c
  {
    match e
    case SetConstant(v) => c.(constant := v)
    case SetPriority(p) => c.(priority := p)
  }

  function EditIfMatching(c: Constraint, attribute: Attribute, e: Edit): Constraint {
    if c.firstAttribute == attribute then Edited(c, e) else c
  }

  /** A list edited position by position is the edited list. */
  lemma EditMatchingPointwise(before: seq<Constraint>, after: seq<Constraint>, attribute: Attribute, e: Edit)
    requires |after| == |before|
    requires forall j :: 0 <= j < |before| ==> after[j] == EditIfMatching(before[j], attribute, e)
    ensures after == EditMatching(before, attribute, e)
  {
  }

  /** Every constraint on `attribute` edited, all others unchanged. */
  function EditMatching(vs: seq<Constraint>, attribute: Attribute, e: Edit): (r: seq<Constraint>)
    ensures |r| == |vs|
    ensures forall i :: 0 <= i < |vs| && vs[i].firstAttribute != attribute ==> r[i] == vs[i]
    ensures forall i :: 0 <= i < |vs| && vs[i].firstAttribute == attribute ==> r[i] == Edited(vs[i], e)
  {
    seq(|vs|, i requires 0 <= i < |vs| => EditIfMatching(vs[i], attribute, e))
  }

  /** The two closures `withEach` is called with. */
  datatype Update = EdgeConstants(insets: EdgeInsets) | AllPriorities(priority: real)

  /**
   * The constant `updateConstants(to:)` gives an attribute: left/leading the raw left inset,
   * right/trailing −|right|, top the raw top inset, bottom −|bottom|; nothing for the others.
   */
  function EdgeConstant(attribute: Attribute, insets: EdgeInsets): (r: Option<real>)
    ensures r.Some? <==> attribute in [Attribute.Left, Attribute.Leading, Attribute.Right, Attribute.Trailing, Attribute.Top, Attribute.Bottom]
    ensures (attribute == Attribute.Right || attribute == Attribute.Trailing || attribute == Attribute.Bottom) ==> r.Some? && r.value <= 0.0
  {
    match attribute
    case Left | Leading => Some(insets.left)
    case Right | Trailing => Some(-Abs(insets.right))
    case Top => Some(insets.top)
    case Bottom => Some(-Abs(insets.bottom))
    case _ => None
  }

  function Updated(c: Constraint, u: Update): (r: Constraint)
    ensures r.(constant := c.constant, priority := c.priority) == c
  {
    match u
    case EdgeConstants(insets) =>
      (match EdgeConstant(c.firstAttribute, insets)
       case None => c
       case Some(v) => c.(constant := v))
    case AllPriorities(p) => c.(priority := p)
  }

  function UpdateAll(vs: seq<Constraint>, u: Update): (r: seq<Constraint>)
    ensures |r| == |vs|
    ensures forall i :: 0 <= i < |vs| ==> r[i] == Updated(vs[i], u)
  {
    seq(|vs|, i requires 0 <= i < |vs| => Updated(vs[i], u))
  }

  /** A list updated position by position is the updated list. */
  lemma UpdateAllPointwise(before: seq<Constraint>, after: seq<Constraint>, u: Update)
    requires |after| == |before|
    requires forall j :: 0 <= j < |before| ==> after[j] == Updated(before[j], u)
    ensures after == UpdateAll(before, u)
  {
  }

  // ---------------------------------------------------------------------------
  // Updates: the in-place methods

  /**
   * `constraint(for:update:)`: applies the edit to every constraint whose first attribute
   * is `attribute`, in place, and returns the receiver. A constraint object listed twice
   * gets the same edit twice, which changes nothing more.
   */
  method ConstraintFor(x: Constrainable, attribute: Attribute, e: Edit) returns (r: Constrainable)
    modifies Constraints(x)
    ensures r == x
    ensures Values(Constraints(x)) == EditMatching(old(Values(Constraints(x))), attribute, e)
  {
    var cs := Constraints(x);
    ghost var done: set<LayoutConstraint> := {};
    var i := 0;
    while i < |cs|
      invariant 0 <= i <= |cs|
      invariant forall j :: 0 <= j < i ==> cs[j] in done
      invariant forall c :: c in cs ==>
        c.Value() == (if c in done then EditIfMatching(old(c.Value()), attribute, e) else old(c.Value()))
    {
      var c := cs[i];
      if c.firstAttribute == attribute {
        c.ApplyEdit(e);
      }
      done := done + {c};
      i := i + 1;
    }
    ghost var before, after := old(Values(cs)), Values(cs);
    assert forall j :: 0 <= j < |cs| ==> after[j] == EditIfMatching(before[j], attribute, e);
    EditMatchingPointwise(before, after, attribute, e);
    r := x;
  }

  /** `withEach`: applies the update to every constraint in place and returns the receiver. */
  method WithEach(x: Constrainable, u: Update) returns (r: Constrainable)
    modifies Constraints(x)
    ensures r == x
    ensures Values(Constraints(x)) == UpdateAll(old(Values(Constraints(x))), u)
  {
    var cs := Constraints(x);
    ghost var done: set<LayoutConstraint> := {};
    var i := 0;
    while i < |cs|
      invariant 0 <= i <= |cs|
      invariant forall j :: 0 <= j < i ==> cs[j] in done
      invariant forall c :: c in cs ==>
        c.Value() == (if c in done then Updated(old(c.Value()), u) else old(c.Value()))
    {
      cs[i].ApplyUpdate(u);
      done := done + {cs[i]};
      i := i + 1;
    }
    ghost var before, after := old(Values(cs)), Values(cs);
    assert forall j :: 0 <= j < |cs| ==> after[j] == Updated(before[j], u);
    UpdateAllPointwise(before, after, u);
    r := x;
  }

  /** `updateConstant(for:update:)`. */
  method UpdateConstant(x: Constrainable, attribute: Attribute, value: real) returns (r: Constrainable)
    modifies Constraints(x)
    ensures r == x
    ensures Values(Constraints(x)) == EditMatching(old(Values(Constraints(x))), attribute, SetConstant(value))
  {
    r := ConstraintFor(x, attribute, SetConstant(value));
  }

  /** `updatePriority(for:update:)`. */
  method UpdatePriorityFor(x: Constrainable, attribute: Attribute, priority: real) returns (r: Constrainable)
    modifies Constraints(x)
    ensures r == x
    ensures Values(Constraints(x)) == EditMatching(old(Values(Constraints(x))), attribute, SetPriority(priority))
  {
    r := ConstraintFor(x, attribute, SetPriority(priority));
  }

  /** `updateConstants(to:)`. */
  method UpdateConstants(x: Constrainable, insets: EdgeInsets) returns (r: Constrainable)
    modifies Constraints(x)
    ensures r == x
    ensures Values(Constraints(x)) == UpdateAll(old(Values(Constraints(x))), EdgeConstants(insets))
  {
    r := WithEach(x, EdgeConstants(insets));
  }

  /** `updatePriority(_:)`. */
  method UpdatePriority(x: Constrainable, priority: real) returns (r: Constrainable)
    modifies Constraints(x)
    ensures r == x
    ensures Values(Constraints(x)) == UpdateAll(old(Values(Constraints(x))), AllPriorities(priority))
  {
    r := WithEach(x, AllPriorities(priority));
  }

  /** `updateSize(_:)`: the width constant, then the height constant. */
  method UpdateSize(x: Constrainable, size: Size) returns (r: Constrainable)
    modifies Constraints(x)
    ensures r == x
    ensures Values(Constraints(x)) ==
      EditMatching(EditMatching(old(Values(Constraints(x))), Attribute.Width, SetConstant(size.width)), Attribute.Height, SetConstant(size.height))
  {
    var _ := UpdateConstant(x, Attribute.Width, size.width);
    r := UpdateConstant(x, Attribute.Height, size.height);
  }

  // ---------------------------------------------------------------------------
  // Properties of the updates

  /** With nothing on `attribute`, an edit changes nothing. */
  lemma EditWithoutMatchIsIdentity(vs: seq<Constraint>, attribute: Attribute, e: Edit)
    requires forall c :: c in vs ==> c.firstAttribute != attribute
    ensures EditMatching(vs, attribute, e) == vs
  {
  }

  /** Editing is idempotent, so repeating an update has no further effect. */
  lemma EditMatchingIdempotent(vs: seq<Constraint>, attribute: Attribute, e: Edit)
    ensures EditMatching(EditMatching(vs, attribute, e), attribute, e) == EditMatching(vs, attribute, e)
  {
  }

  /**
   * `updateSize(s)` sets width constraints to s.width and height constraints to s.height and
   * leaves every other constraint as it was; the order of the two steps does not matter.
   */
  lemma UpdateSizeMeaning(vs: seq<Constraint>, size: Size)
    ensures var r := EditMatching(EditMatching(vs, Attribute.Width, SetConstant(size.width)), Attribute.Height, SetConstant(size.height));
      && |r| == |vs|
      && (forall i :: 0 <= i < |vs| && vs[i].firstAttribute == Attribute.Width ==> r[i] == vs[i].(constant := size.width))
      && (forall i :: 0 <= i < |vs| && vs[i].firstAttribute == Attribute.Height ==> r[i] == vs[i].(constant := size.height))
      && (forall i :: 0 <= i < |vs| && vs[i].firstAttribute != Attribute.Width && vs[i].firstAttribute != Attribute.Height ==> r[i] == vs[i])
      && r == EditMatching(EditMatching(vs, Attribute.Height, SetConstant(size.height)), Attribute.Width, SetConstant(size.width))
  {
  }

  /** After `updateConstants(to:)` trailing, right and bottom constants are never positive. */
  lemma UpdateConstantsSigns(vs: seq<Constraint>, insets: EdgeInsets)
    ensures forall i :: 0 <= i < |vs| && vs[i].firstAttribute in [Attribute.Right, Attribute.Trailing, Attribute.Bottom] ==>
      UpdateAll(vs, EdgeConstants(insets))[i].constant <= 0.0
    ensures forall i :: 0 <= i < |vs| && EdgeConstant(vs[i].firstAttribute, insets).None? ==>
      UpdateAll(vs, EdgeConstants(insets))[i] == vs[i]
  {
  }

  /**
   * `updateConstants(to: i)` on the four superview constraints of `edges(i0)`, constraint by
   * constraint, compared with the four constraints of `edges(i)`.
   */
  lemma RetargetEdgeConstraints(owner: Item, s: Option<Item>, relation: Relation, i0: EdgeInsets, i: EdgeInsets,
                                tp: real, lp: real, trp: real, bp: real)
    ensures UpdateAll([ Constraint(owner, Attribute.Top, relation, s, Attribute.Top, 1.0, i0.top, tp),
                        Constraint(owner, Attribute.Leading, relation, s, Attribute.Leading, 1.0, i0.left, lp),
                        Constraint(owner, Attribute.Trailing, relation, s, Attribute.Trailing, 1.0, -i0.right, trp),
                        Constraint(owner, Attribute.Bottom, relation, s, Attribute.Bottom, 1.0, -i0.bottom, bp) ], EdgeConstants(i))
         == [ Constraint(owner, Attribute.Top, relation, s, Attribute.Top, 1.0, i.top, tp),
              Constraint(owner, Attribute.Leading, relation, s, Attribute.Leading, 1.0, i.left, lp),
              Constraint(owner, Attribute.Trailing, relation, s, Attribute.Trailing, 1.0, -i.right, trp),
              Constraint(owner, Attribute.Bottom, relation, s, Attribute.Bottom, 1.0, -i.bottom, bp) ]
       <==> i.right >= 0.0 && i.bottom >= 0.0
  {
    var vs := [ Constraint(owner, Attribute.Top, relation, s, Attribute.Top, 1.0, i0.top, tp),
                Constraint(owner, Attribute.Leading, relation, s, Attribute.Leading, 1.0, i0.left, lp),
                Constraint(owner, Attribute.Trailing, relation, s, Attribute.Trailing, 1.0, -i0.right, trp),
                Constraint(owner, Attribute.Bottom, relation, s, Attribute.Bottom, 1.0, -i0.bottom, bp) ];
    var u := EdgeConstants(i);
    var updated := [ Constraint(owner, Attribute.Top, relation, s, Attribute.Top, 1.0, i.top, tp),
                     Constraint(owner, Attribute.Leading, relation, s, Attribute.Leading, 1.0, i.left, lp),
                     Constraint(owner, Attribute.Trailing, relation, s, Attribute.Trailing, 1.0, -Abs(i.right), trp),
                     Constraint(owner, Attribute.Bottom, relation, s, Attribute.Bottom, 1.0, -Abs(i.bottom), bp) ];
    var target := [ Constraint(owner, Attribute.Top, relation, s, Attribute.Top, 1.0, i.top, tp),
                    Constraint(owner, Attribute.Leading, relation, s, Attribute.Leading, 1.0, i.left, lp),
                    Constraint(owner, Attribute.Trailing, relation, s, Attribute.Trailing, 1.0, -i.right, trp),
                    Constraint(owner, Attribute.Bottom, relation, s, Attribute.Bottom, 1.0, -i.bottom, bp) ];
    assert UpdateAll(vs, u) == [Updated(vs[0], u), Updated(vs[1], u), Updated(vs[2], u), Updated(vs[3], u)];
    assert UpdateAll(vs, u) == updated;
    if i.right >= 0.0 && i.bottom >= 0.0 {
      assert updated == target;
    } else {
      assert updated[2].constant != target[2].constant || updated[3].constant != target[3].constant;
    }
  }

  /**
   * On the constraints `edges(i0)` makes against a superview, `updateConstants(to: i)` gives the
   * same constants as `edges(i)` exactly when the right and bottom insets of `i` are not negative:
   * `edges` negates those insets while `updateConstants` takes minus their absolute value.
   */
  lemma UpdateConstantsRetargetsEdges(owner: Item, i0: EdgeInsets, i: EdgeInsets, tp: real, lp: real, trp: real, bp: real,
                                      relation: Relation, h: ConstraintBuilders.Hierarchy)
    requires ConstraintBuilders.SuperviewOf(owner, h).Some?
    ensures var before := ConstraintBuilders.Resolve(
              ConstraintBuilders.ConstraintBuilder(owner, CombinatorTable.EdgesEntries(i0, tp, lp, trp, bp)), relation, ConstraintBuilders.ToSuperview, h);
            var target := ConstraintBuilders.Resolve(
              ConstraintBuilders.ConstraintBuilder(owner, CombinatorTable.EdgesEntries(i, tp, lp, trp, bp)), relation, ConstraintBuilders.ToSuperview, h);
      UpdateAll(before, EdgeConstants(i)) == target <==> i.right >= 0.0 && i.bottom >= 0.0
  {
    var s := ConstraintBuilders.SuperviewOf(owner, h);
    CombinatorTable.EdgesToSuperview(owner, i0, tp, lp, trp, bp, relation, h);
    CombinatorTable.EdgesToSuperview(owner, i, tp, lp, trp, bp, relation, h);
    RetargetEdgeConstraints(owner, s, relation, i0, i, tp, lp, trp, bp);
  }
}
