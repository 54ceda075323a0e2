/** The `AutoLayoutBuilder` result builder: blocks, loops and conditionals flatten to one list. */
module AutoLayoutBuilders {
  import opened Wrappers
  import opened Lists
  import opened Constrainables

  function ConstraintLists(components: seq<Constrainable>): (r: seq<seq<LayoutConstraint>>)
    ensures |r| == |components|
    ensures forall i :: 0 <= i < |components| ==> r[i] == Constraints(components[i])
  {
    seq(|components|, i requires 0 <= i < |components| => Constraints(components[i]))
  }

  /** `buildBlock`: the components' constraints, flattened. */
  function BuildBlock(components: seq<Constrainable>): seq<LayoutConstraint> {
    Flatten(ConstraintLists(components))
  }

  /** Each component's constraints appear as one contiguous run, in written order, and nothing else does. */
  lemma BuildBlockInOrder(components: seq<Constrainable>)
    ensures |BuildBlock(components)| == Offset(ConstraintLists(components), |components|)
    ensures forall i :: 0 <= i < |components| ==>
      Offset(ConstraintLists(components), i) + |Constraints(components[i])| <= |BuildBlock(components)| &&
      BuildBlock(components)[Offset(ConstraintLists(components), i)..Offset(ConstraintLists(components), i) + |Constraints(components[i])|]
        == Constraints(components[i])
  {
    FlattenSlices(ConstraintLists(components));
  }

  /** A constraint is in the block exactly when some component contributed it. */
  lemma BuildBlockMembers(components: seq<Constrainable>, c: LayoutConstraint)
    ensures c in BuildBlock(components) <==> exists i :: 0 <= i < |components| && c in Constraints(components[i])
  {
    FlattenMember(ConstraintLists(components), c);
  }

  /** `buildArray`: the loop iterations' blocks, in order. */
  function BuildArray(components: seq<seq<Constrainable>>): seq<LayoutConstraint> {
    Flatten(seq(|components|, i requires 0 <= i < |components| => BuildBlock(components[i])))
  }

  /** `buildOptional`: nothing for a false condition, the block otherwise. */
  function BuildOptional(components: Option<seq<Constrainable>>): (r: seq<LayoutConstraint>)
    ensures components.None? ==> r == []
  {
    match components
    case None => []
    case Some(cs) => BuildBlock(cs)
  }

  function BuildEitherFirst(components: seq<Constrainable>): seq<LayoutConstraint> {
    BuildBlock(components)
  }

  function BuildEitherSecond(components: seq<Constrainable>): seq<LayoutConstraint> {
    BuildBlock(components)
  }

  function BuildLimitedAvailability(components: seq<Constrainable>): seq<LayoutConstraint> {
    BuildBlock(components)
  }

  /** Two blocks written one after the other give their constraints one after the other. */
  lemma BuildBlockAppend(a: seq<Constrainable>, b: seq<Constrainable>)
    ensures BuildBlock(a + b) == BuildBlock(a) + BuildBlock(b)
  {
    assert ConstraintLists(a + b) == ConstraintLists(a) + ConstraintLists(b);
    FlattenAppend(ConstraintLists(a), ConstraintLists(b));
  }

  /** A loop gives the same list as one block holding every iteration's components in order. */
  lemma {:induction false} BuildArrayIsOneBlock(components: seq<seq<Constrainable>>)
    ensures BuildArray(components) == BuildBlock(Flatten(components))
    decreases |components|
  {
    if |components| == 0 {
      assert ConstraintLists([]) == [];
    } else {
      var init := components[..|components| - 1];
      var last := components[|components| - 1];
      BuildArrayIsOneBlock(init);
      var blocks := seq(|components|, i requires 0 <= i < |components| => BuildBlock(components[i]));
      var initBlocks := seq(|init|, i requires 0 <= i < |init| => BuildBlock(init[i]));
      assert blocks[..|blocks| - 1] == initBlocks;
      assert BuildArray(components) == BuildArray(init) + BuildBlock(last);
      assert Flatten(components) == Flatten(init) + last;
      BuildBlockAppend(Flatten(init), last);
    }
  }

  /** Every branch form is plain flattening: a present optional, both `if`/`else` branches and `#available`. */
  lemma BranchesAreBlocks(components: seq<Constrainable>)
    ensures BuildOptional(Some(components)) == BuildBlock(components)
    ensures BuildEitherFirst(components) == BuildEitherSecond(components) == BuildLimitedAvailability(components) == BuildBlock(components)
  {
  }

  /** An empty block is empty; a one-component block is that component's constraints. */
  lemma BlockOfOne(x: Constrainable)
    ensures BuildBlock([]) == []
    ensures BuildBlock([x]) == Constraints(x)
  {
    assert ConstraintLists([x]) == [Constraints(x)];
    FlattenSingle(Constraints(x));
  }
}
