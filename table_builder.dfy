/** `TableViewBuilder`: the table's sections, in written order. */
module TableBuilders {
  import opened Wrappers
  import opened Lists
  import opened SectionBuilders

  /** `buildBlock(_: TableViewSection...)`. */
  function BuildBlockSections(components: seq<TableSection>): seq<TableSection> {
    components
  }

  /** `buildBlock(_: [TableViewSection]...)`: the lists, concatenated in order. */
  function BuildBlock(components: seq<seq<TableSection>>): seq<TableSection> {
    Flatten(components)
  }

  function BuildArray(components: seq<seq<TableSection>>): seq<TableSection> {
    Flatten(components)
  }

  function BuildOptional(component: Option<seq<TableSection>>): (r: seq<TableSection>)
    ensures component.None? ==> r == []
    ensures component.Some? ==> r == component.value
  {
    component.GetOr([])
  }

  function BuildEitherFirst(component: seq<TableSection>): seq<TableSection> {
    component
  }

  function BuildEitherSecond(component: seq<TableSection>): seq<TableSection> {
    component
  }

  function BuildLimitedAvailability(component: seq<TableSection>): seq<TableSection> {
    component
  }

  /** Each list of sections appears as one contiguous run, in order, and the section count is the sum. */
  lemma BuildBlockInOrder(components: seq<seq<TableSection>>)
    ensures |BuildBlock(components)| == Offset(components, |components|)
    ensures forall i :: 0 <= i < |components| ==>
      Offset(components, i) + |components[i]| <= |BuildBlock(components)| &&
      BuildBlock(components)[Offset(components, i)..Offset(components, i) + |components[i]|] == components[i]
    ensures BuildArray(components) == BuildBlock(components)
  {
    FlattenSlices(components);
  }

  /** Blocks written one after the other list their sections one after the other. */
  lemma BuildBlockAppend(a: seq<seq<TableSection>>, b: seq<seq<TableSection>>)
    ensures BuildBlock(a + b) == BuildBlock(a) + BuildBlock(b)
  {
    FlattenAppend(a, b);
  }
}
