/** The `StackableViewBuilder` result builder: the stack's arranged views, in written order. */
module StackableViewBuilders {
  import opened Wrappers
  import opened Lists
  import opened StackableViews

  /** `buildBlock`: the written views, as they are. */
  function BuildBlock(components: seq<StackableView>): seq<StackableView> {
    components
  }

  /** `buildArray`: every iteration's views, iteration after iteration. */
  function BuildArray(components: seq<seq<StackableView>>): seq<StackableView> {
    Flatten(components)
  }

  /** `buildOptional`: nothing for a false condition. */
  function BuildOptional(component: Option<seq<StackableView>>): (r: seq<StackableView>)
    ensures component.None? ==> r == []
    ensures component.Some? ==> r == component.value
  {
    component.GetOr([])
  }

  function BuildEitherFirst(component: seq<StackableView>): seq<StackableView> {
    component
  }

  function BuildEitherSecond(component: seq<StackableView>): seq<StackableView> {
    component
  }

  function BuildLimitedAvailability(component: seq<StackableView>): seq<StackableView> {
    component
  }

  /** A loop lists each iteration's views as one contiguous run, in iteration order, and nothing else. */
  lemma BuildArrayInOrder(components: seq<seq<StackableView>>)
    ensures |BuildArray(components)| == Offset(components, |components|)
    ensures forall i :: 0 <= i < |components| ==>
      Offset(components, i) + |components[i]| <= |BuildArray(components)| &&
      BuildArray(components)[Offset(components, i)..Offset(components, i) + |components[i]|] == components[i]
    ensures forall v :: v in BuildArray(components) <==> exists i :: 0 <= i < |components| && v in components[i]
  {
    FlattenSlices(components);
    forall v {
      FlattenMember(components, v);
    }
  }

  /** Two loops written one after the other list their views one after the other. */
  lemma BuildArrayAppend(a: seq<seq<StackableView>>, b: seq<seq<StackableView>>)
    ensures BuildArray(a + b) == BuildArray(a) + BuildArray(b)
  {
    FlattenAppend(a, b);
  }
}
