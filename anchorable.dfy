/**
 * `configure`, `collect` and the three `store(...work:)` helpers on `Anchorable`. The work
 * closure is represented by the `Constrainable` its result builder returned.
 */
module AnchorableStorage {
  import opened Wrappers
  import opened Anchors
  import opened Constrainables

  /** `Configure`: the work runs for its effects only, and contributes no constraints. */
  function Configure(target: Item): (r: Constrainable)
    ensures Constraints(r) == []
  {
    Configured
  }

  /** `Collect`: exactly the constraints the work produced. */
  function Collect(work: Constrainable): (r: Constrainable)
    ensures Constraints(r) == Constraints(work)
  {
    Collected(Constraints(work))
  }

  /** `store(in: &array, work:)`: the output is the collected list, and the collection is returned. */
  method StoreAllOf(work: Constrainable) returns (r: Constrainable, output: seq<LayoutConstraint>)
    ensures Constraints(r) == Constraints(work)
    ensures output == Constraints(r)
  {
    var collected := Collect(work);
    output := Constraints(collected);
    r := collected;
  }

  /** `store(in: &optional, work:)`: the first collected constraint, or nil when there is none. */
  method StoreFirstOf(work: Constrainable) returns (r: Constrainable, output: Option<LayoutConstraint>)
    ensures Constraints(r) == Constraints(work)
    ensures output.None? <==> Constraints(work) == []
    ensures output.Some? ==> output.value == Constraints(work)[0]
  {
    var collected := Collect(work);
    var cs := Constraints(collected);
    output := if |cs| == 0 then None else Some(cs[0]);
    r := collected;
  }

  /** `store(attribute, in: &optional, work:)`: the first collected constraint on `attribute`. */
  method StoreAttributeOf(attribute: Attribute, work: Constrainable) returns (r: Constrainable, output: Option<LayoutConstraint>)
    ensures Constraints(r) == Constraints(work)
    ensures output.Some? ==> output.value in Constraints(work) && output.value.firstAttribute == attribute
    ensures output.Some? ==>
      exists i :: 0 <= i < |Constraints(work)| && Constraints(work)[i] == output.value &&
        forall j :: 0 <= j < i ==> Constraints(work)[j].firstAttribute != attribute
    ensures output.None? <==> forall c :: c in Constraints(work) ==> c.firstAttribute != attribute
  {
    var collected := Collect(work);
    output := FirstWith(Constraints(collected), attribute);
    r := collected;
  }
}
