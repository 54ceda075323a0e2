# AutoLayoutBuilder in Dafny

A model of the deterministic core of AutoLayoutBuilder, a Swift library that puts a fluent,
declarative front end over UIKit's Auto Layout, `UIStackView` and `UITableView`. The model covers four parts.

- **Constraint expressions.**
  - Layout attributes are classified by axis, and the anchor-compatibility assertion checks each pair.
  - A `ConstraintBuilder` holds pending constraints on one owner. They resolve against another view or layout guide, a typed anchor, or the owner's superview.
  - `combine(with:)` concatenates builders.
  - The named combinators (`edges`, `horizontalEdges`, `verticalEdges`, `center`, `size`) expand from one shared table. There are three copies of this table: on `Anchorable`, on `ConstraintBuilder` (chained) and in the `ConstraintBuilding` protocol extension. The first two are proved to agree with the table. The protocol extension is generic over the conformer's four build functions. For every conformer, each combinator is proved to be its first edge, built by the conformer, followed by the rest of its table row. For the conformer whose build functions are the `ConstraintBuilder` initialisers, it is proved to agree with the table.
  - The `==`/`<=`/`>=` operators pick the relation.
  - Constraints can be updated in place after they are made: constants and priorities, by attribute or all at once.
  - `store` helpers capture constraints.
- **Result builders.** `AutoLayoutBuilder`, `StackableViewBuilder`, `TableViewBuilder` and `TableViewSectionBuilder` flatten blocks, loops and conditionals in written order. A section is then reduced as follows: the first header wins, the first footer wins, and the rows keep their order.
- **Stack compositor.**
  - `StackableView` wrappers (`top`, `leading`, `trailing`, `bottom`, `centered`, `padding`, `verticalPadding`) put a view in a new container. They keep `originalView` and pin the view to the container with a fixed set of constraints.
  - `StackView` is a class. It keeps `stackedViews` in step with the arranged subviews, finds items by a four-way identity match, and inserts, removes, hides, shows and replaces items in place.
  - `ScrollableStackView` forwards each of these to its inner `StackView`.
- **Table model.**
  - Rows have capabilities (plain, editable, movable) with the protocol defaults. Headers and footers are titles, views or nothing.
  - `TableViewManager` is a class that owns the sections. It answers the table view's queries, and commits inserts, deletes and moves in place.

## Representation

- **Views, layout guides and constraints**
  - Views and layout guides are identities: `Item = View(id) | Guide(id)`. Only views are `BaselineAnchorable` and have a superview.
  - The view hierarchy is a map from view id to superview id. It is read when a builder is resolved, as the Swift closures read `superview` when they run.
  - `NSLayoutConstraint` is a `Constraint` record wherever the library only builds constraints.
  - Where the library changes constraints in place, `NSLayoutConstraint` is a `LayoutConstraint` class: its identity fields are constants, and `constant`/`priority` are mutable fields. This lets the constraint objects a `store` helper hands out alias the ones that are updated later.
- **Builders.** A Swift `ConstraintBuilder` stores one closure per kind of target. Here it is an owner plus a sequence of pending records, and `Resolve(builder, relation, target, hierarchy)` plays the role of all the closures at once. `Combine` is concatenation.
- **Numbers.** `CGFloat` and `UILayoutPriority` are `real`; `.required` is `1000.0`.
- **Assertions.**
  - An assertion that guards a caller mistake becomes a `requires`: `combine(with:)` between different owners, and out-of-range indices.
  - `Anchor.assertAnchors` returns the failure it would report (a `Result`).
  - The chained baseline fallback is modelled as it behaves when assertions are compiled out (it returns the receiver), and the predicate `BaselineAsserts` names the asserting case.

## Model

| member | source | states |
|---|---|---|
| Anchors.TraitIsExactlyOne | Sources/AutoLayoutBuilder/Anchor.swift:70-75 | Each attribute has exactly one trait. x iff it is in the x-axis list, y iff in the y-axis list, dimension iff in the dimension list, none iff `notAnAttribute`. Baselines are y. |
| Anchors.CheckAnchorsAccepts | Sources/AutoLayoutBuilder/Anchor.swift:81-92 | The assertion passes iff the trait pair is (x,x), (y,y), (dimension,dimension) or (dimension,none), and every baseline anchor on either side belongs to a view. |
| Anchors.CheckAnchorsRejects | Sources/AutoLayoutBuilder/Anchor.swift:93-103 | Reports "no starting anchor" iff the left trait is none. Reports "needs a counterpart" iff an x or y anchor meets none. Reports a cross-axis error iff both traits are present and different. |
| Anchors.AnchorConstraint | Sources/AutoLayoutBuilder/Anchor.swift:43-59 | Fails exactly when the assertion fails, with its error. Otherwise the constraint carries the given relation, constant and multiplier at required priority. It has no second item exactly when the target attribute is `notAnAttribute`. |
| Anchors.ValueConstraint | Sources/AutoLayoutBuilder/Anchor.swift:61-66 | Constraining to a value succeeds iff the anchor is a dimension. It is then a constraint to no item, of attribute `notAnAttribute`, with multiplier 1 and constant = value. |
| Anchors.DescriptionRoundTrip | Sources/AutoLayoutBuilder/Anchor.swift:9-34 | Every attribute's description names that attribute back. |
| Anchors.DescriptionInjective | Sources/AutoLayoutBuilder/Anchor.swift:9-34 | Distinct attributes have distinct descriptions. |
| Wrappers.ToSeq | Sources/AutoLayoutBuilder/ConstraintBuilder.swift:271-275 | `Optional.array` is empty for nil and the one-element list for a value. |
| ConstraintBuilders.SuperviewOf | Sources/AutoLayoutBuilder/ConstraintBuilder.swift:167-168 | There is a superview only for a view that is in the hierarchy, and the superview is a view. |
| ConstraintBuilders.ResolveOne | Sources/AutoLayoutBuilder/ConstraintBuilder.swift:161-268 | One pending constraint yields at most one constraint, on the owner's attribute with the requested relation. |
| ConstraintBuilders.EqualTo | Sources/AutoLayoutBuilder/ConstraintBuilder.swift:62-84 | No more constraints than pending entries, all from the owner with relation `.equal`. |
| ConstraintBuilders.LessThanOrEqualTo | Sources/AutoLayoutBuilder/ConstraintBuilder.swift:87-109 | The same, with relation `.lessThanOrEqual`. |
| ConstraintBuilders.GreaterThanOrEqualTo | Sources/AutoLayoutBuilder/ConstraintBuilder.swift:112-134 | The same, with relation `.greaterThanOrEqual`. |
| ConstraintBuilders.RelationMethodsAgree | Sources/AutoLayoutBuilder/ConstraintBuilder.swift:62-134 | For any target, the three relation methods yield the same constraints in the same order, differing only in the relation. |
| ConstraintBuilders.Combine | Sources/AutoLayoutBuilder/ConstraintBuilder.swift:137-157 | Only builders with the same owner combine. The result keeps the owner. Its pending constraints are the receiver's followed by the other's, and it is well-formed when both are. |
| ConstraintBuilders.CombineResolves | Sources/AutoLayoutBuilder/ConstraintBuilder.swift:139-156 | For every relation and target, a combined builder yields the receiver's constraints followed by the other's. |
| ConstraintBuilders.XAxisBuilder | Sources/AutoLayoutBuilder/ConstraintBuilder.swift:161-185 | The x-axis initialiser makes a well-formed one-entry builder for its owner. |
| ConstraintBuilders.YAxisBuilder | Sources/AutoLayoutBuilder/ConstraintBuilder.swift:187-212 | The y-axis initialiser makes a well-formed one-entry builder for its owner. |
| ConstraintBuilders.BaselineBuilder | Sources/AutoLayoutBuilder/ConstraintBuilder.swift:214-241 | The baseline initialiser, on a view, makes a well-formed one-entry builder. |
| ConstraintBuilders.DimensionBuilder | Sources/AutoLayoutBuilder/ConstraintBuilder.swift:243-268 | The dimension initialiser makes a well-formed builder whose one entry is a dimension entry carrying the given attribute, constant, multiplier and priority. |
| ConstraintBuilders.ResolveToSuperview | Sources/AutoLayoutBuilder/ConstraintBuilder.swift:181-183 | Against the superview: nothing if the owner is not a view or has no superview. Otherwise one constraint per pending entry, in order, to the superview's same attribute, with multiplier 1 and the entry's constant and priority. |
| ConstraintBuilders.ResolveToItem | Sources/AutoLayoutBuilder/ConstraintBuilder.swift:173-175 | Against another item, when no baseline entry meets a layout guide: one constraint per entry, in order, to the item's same attribute, with multiplier 1. |
| ConstraintBuilders.XAxisBuilderResolves | Sources/AutoLayoutBuilder/ConstraintBuilder.swift:173-180 | An x-axis builder yields exactly one constraint against an item or an x anchor, and none against a y anchor or a dimension. |
| ConstraintBuilders.YAxisBuilderResolves | Sources/AutoLayoutBuilder/ConstraintBuilder.swift:199-206 | A y-axis builder yields exactly one constraint against an item or a y anchor, and none against an x anchor or a dimension. |
| ConstraintBuilders.BaselineBuilderResolves | Sources/AutoLayoutBuilder/ConstraintBuilder.swift:226-235 | A baseline builder yields nothing against a layout guide. It yields one constraint against a view or a y anchor, and none against an x anchor or a dimension. |
| ConstraintBuilders.DimensionBuilderResolves | Sources/AutoLayoutBuilder/ConstraintBuilder.swift:256-265 | A dimension builder uses its multiplier only against a dimension anchor. Against an item or the superview it uses multiplier 1. It yields nothing against x or y anchors. |
| CombinatorTable.KindOf | Sources/AutoLayoutBuilder/Anchorable+ConstraintBuilder.swift:7-57 | The anchor type behind a key path picks the initialiser: x attributes take the x-axis one, baselines the baseline one, other y attributes the y-axis one, and dimensions the dimension one. |
| CombinatorTable.KeyPathKinds | Sources/AutoLayoutBuilder/Anchorable+ConstraintBuilder.swift:7-57 | The initialiser kind of each attribute that has a key path on `Anchorable`/`BaselineAnchorable`. |
| CombinatorTable.TableWellFormed | Sources/AutoLayoutBuilder/Anchorable+ConstraintBuilder.swift:62-132 | Every row of the combinator table is an entry the initialisers accept. |
| CombinatorTable.EdgesToSuperview | Sources/AutoLayoutBuilder/Anchorable+ConstraintBuilder.swift:62-73 | `edges(insets) == Superview()` gives four constraints, in this order: top = insets.top, leading = insets.left, trailing = −insets.right, bottom = −insets.bottom. Each pins the superview's same edge at its own priority. |
| CombinatorTable.SizeToDimension | Sources/AutoLayoutBuilder/Anchorable+ConstraintBuilder.swift:124-132 | `size(s, m)` against a dimension anchor: the width constraint, then the height constraint, both with multiplier m. |
| EdgeBuilders.SingleEdgesFollowTable | Sources/AutoLayoutBuilder/Anchorable+ConstraintBuilder.swift:7-57 | Each single-edge constructor makes a one-entry builder for its own attribute, with the given constant, multiplier and priority. Baselines exist only on views. |
| EdgeBuilders.SingleEdgeDefaults | Sources/AutoLayoutBuilder/Anchorable+ConstraintBuilder.swift:7-9 | The defaults are constant 0, multiplier 1 and `.required`. |
| AnchorableCombinators.AnchorableCombinatorsFollowTable | Sources/AutoLayoutBuilder/Anchorable+ConstraintBuilder.swift:62-132 | `edges` (insets or scalar), `horizontalEdges`, `verticalEdges`, `center` and `size` expand to exactly their table rows, in order, with trailing and bottom negated. |
| AnchorableCombinators.BaselinesOnViews | Sources/AutoLayoutBuilder/Anchorable+ConstraintBuilder.swift:135-145 | A view's first/last baseline builder, resolved against another view, pins the same baseline. |
| ChainedBuilders.ChainedSinglesAppend | Sources/AutoLayoutBuilder/ConstraintBuilder+Implementation.swift:7-57 | Chaining `b.X(...)` appends X's entry after b's pending constraints. |
| ChainedBuilders.ChainedCombinatorsFollowTable | Sources/AutoLayoutBuilder/ConstraintBuilder+Implementation.swift:62-132 | The chained named combinators append their table rows after the receiver's pending constraints. |
| ChainedBuilders.BaselineFallback | Sources/AutoLayoutBuilder/ConstraintBuilder+Implementation.swift:137-154 | On a layout guide the chained baselines assert and return the receiver unchanged. On a view they append the baseline entry. |
| BuildingProtocol.SingleEdgesRoute | Sources/AutoLayoutBuilder/ConstraintBuilding.swift:34-114 | For the initialiser conformer, each protocol single edge equals the `Anchorable` constructor, that is, its one table entry. This includes the baselines when the owner is `BaselineAnchorable`, where the baseline build function is defined. |
| BuildingProtocol.CombinatorsChainFirstEdge | Sources/AutoLayoutBuilder/ConstraintBuilding.swift:119-233 | For every conformer, each named combinator is its first edge as the conformer builds it, followed by the rest of its table row. The chained `ConstraintBuilder` methods append that rest with the first builder's owner, so only the first edge goes through the conformer. |
| BuildingProtocol.ProtocolCombinatorsFollowTable | Sources/AutoLayoutBuilder/ConstraintBuilding.swift:119-233 | For the initialiser conformer, the protocol's named combinators expand to the same table rows as the other two files. |
| BuildingProtocol.AllEdgePriorities | Sources/AutoLayoutBuilder/ConstraintBuilding.swift:135-146 | For the initialiser conformer, the `allEdgePriorities` overloads are the per-edge forms with one priority on all four edges, so every entry has that priority. |
| Operators.RelationOf | Sources/AutoLayoutBuilder/Operators.swift:12-127 | `==`, `<=` and `>=` map one-to-one onto `.equal`, `.lessThanOrEqual` and `.greaterThanOrEqual`. |
| Operators.BuilderOperatorsDelegate | Sources/AutoLayoutBuilder/Operators.swift:12-104 | `builder op Superview()` and `builder op view` resolve the builder with the operator's relation and nothing else. |
| Operators.EqualToSuperviewPins | Sources/AutoLayoutBuilder/Operators.swift:12-14 | `builder == Superview()`, for a view with a superview, pins each pending attribute to the superview's same attribute. |
| Operators.AnchorToValueMeaning | Sources/AutoLayoutBuilder/Operators.swift:27-29 | `anchor op value` succeeds only on a dimension. It then gives one constraint to no item, with the operator's relation, constant = value and multiplier 1. |
| Operators.AnchorToAnchorMeaning | Sources/AutoLayoutBuilder/Operators.swift:32-34 | `anchor op anchor` succeeds iff the assertion accepts the pair. It then relates the two anchors with the operator's relation, constant 0 and multiplier 1. |
| Operators.SizeToSize | Sources/AutoLayoutBuilder/Operators.swift:37-42 | `size op CGSize` succeeds iff both anchors are dimensions. It yields exactly [width = s.width, height = s.height], in that order. |
| Operators.SizeToScalar | Sources/AutoLayoutBuilder/Operators.swift:45-47 | `size op c` gives two constraints, both with constant c. |
| Operators.SizeScalarIsSquare | Sources/AutoLayoutBuilder/Operators.swift:45-47 | `size op c` equals `size op CGSize(c, c)`. |
| Constrainables.Constraints | Sources/AutoLayoutBuilder/Constrainable.swift:9-15 | A constraint's `constraints` is `[self]`. An array's is itself. `Configure` has none, and `Collect` has what it collected. |
| Constrainables.FirstWith | Sources/AutoLayoutBuilder/Constrainable.swift:50-53 | The result is the first constraint in the list that is on the attribute: it is on the attribute, and every constraint before it is on another. It is nil iff no constraint is on the attribute. |
| Constrainables.StoreConstraint | Sources/AutoLayoutBuilder/Constrainable.swift:26-29 | `store(in: &optional)` on a constraint writes that constraint and returns it. |
| Constrainables.StoreAll | Sources/AutoLayoutBuilder/Constrainable.swift:39-42 | `store(in: &array)` writes exactly `constraints` and returns the receiver. |
| Constrainables.StoreAttribute | Sources/AutoLayoutBuilder/Constrainable.swift:50-53 | `store(a, in:)` writes the first constraint whose first attribute is a (none earlier has it), or nil iff none has it, and returns the receiver. |
| Constrainables.Edited | Sources/AutoLayoutBuilder/Constrainable.swift:60-65 | An edit changes its own field (constant or priority) and nothing else. |
| Constrainables.EditMatching | Sources/AutoLayoutBuilder/Constrainable.swift:60-65 | Constraints on the attribute are edited, every other one is unchanged, and the length is kept. |
| Constrainables.EdgeConstant | Sources/AutoLayoutBuilder/Constrainable.swift:75-85 | `updateConstants` touches exactly left, leading, right, trailing, top and bottom. Right, trailing and bottom get a constant ≤ 0. |
| Constrainables.ConstraintFor | Sources/AutoLayoutBuilder/Constrainable.swift:60-65 | Updates in place: afterwards the constraint objects hold the old values with every constraint on the attribute edited. The receiver is returned. |
| Constrainables.WithEach | Sources/AutoLayoutBuilder/Constrainable.swift:75-97 | Updates in place: every constraint object holds its old value with the update applied. The receiver is returned. |
| Constrainables.UpdateConstant | Sources/AutoLayoutBuilder/Constrainable.swift:68-72 | Sets the constant of every constraint on the attribute and leaves the others unchanged. |
| Constrainables.UpdatePriorityFor | Sources/AutoLayoutBuilder/Constrainable.swift:88-92 | Sets the priority of every constraint on the attribute and leaves the others unchanged. |
| Constrainables.UpdateConstants | Sources/AutoLayoutBuilder/Constrainable.swift:75-85 | Applies the edge-inset rule to every constraint in place. |
| Constrainables.UpdatePriority | Sources/AutoLayoutBuilder/Constrainable.swift:95-97 | Sets the priority of every constraint. |
| Constrainables.UpdateSize | Sources/AutoLayoutBuilder/Constrainable.swift:100-103 | Is `updateConstant(.width, s.width)` followed by `updateConstant(.height, s.height)`. |
| Constrainables.EditWithoutMatchIsIdentity | Sources/AutoLayoutBuilder/Constrainable.swift:68-72 | If no constraint is on the attribute, an update changes nothing. |
| Constrainables.EditMatchingIdempotent | Sources/AutoLayoutBuilder/Constrainable.swift:60-65 | Repeating an update has no further effect. |
| Constrainables.UpdateSizeMeaning | Sources/AutoLayoutBuilder/Constrainable.swift:100-103 | `updateSize(s)` sets width constants to s.width and height constants to s.height, and leaves every other constraint as it was. The order of the two steps does not matter. |
| Constrainables.UpdateConstantsSigns | Sources/AutoLayoutBuilder/Constrainable.swift:75-85 | Afterwards right, trailing and bottom constants are never positive. Constraints on other attributes are unchanged. |
| Constrainables.UpdateConstantsRetargetsEdges | Sources/AutoLayoutBuilder/Constrainable.swift:75-85 | Start from the superview constraints of `edges(i0)`. `updateConstants(to: i)` then gives exactly the constraints of `edges(i)` iff i.right ≥ 0 and i.bottom ≥ 0. |
| AnchorableStorage.Configure | Sources/AutoLayoutBuilder/Anchorable.swift:87-92 | `Configure` contributes no constraints. |
| AnchorableStorage.Collect | Sources/AutoLayoutBuilder/Anchorable.swift:94-99 | `Collect` has exactly the work's constraints. |
| AnchorableStorage.StoreAllOf | Sources/AutoLayoutBuilder/Anchorable.swift:51-55 | The output is the collected list, and the collection is returned. |
| AnchorableStorage.StoreFirstOf | Sources/AutoLayoutBuilder/Anchorable.swift:65-69 | The output is the first collected constraint, or nil iff none was collected. |
| AnchorableStorage.StoreAttributeOf | Sources/AutoLayoutBuilder/Anchorable.swift:80-84 | The output is the first collected constraint on the attribute, or nil iff none is on it. |
| AutoLayoutBuilders.BuildBlockInOrder | Sources/AutoLayoutBuilder/AutoLayoutBuilder.swift:8-10 | Each component's constraints appear as one contiguous run, in written order, and the length is the sum. |
| AutoLayoutBuilders.BuildBlockMembers | Sources/AutoLayoutBuilder/AutoLayoutBuilder.swift:8-10 | A constraint is in the block iff some component contributed it. |
| AutoLayoutBuilders.BuildBlockAppend | Sources/AutoLayoutBuilder/AutoLayoutBuilder.swift:8-10 | Components written one after the other give their constraints one after the other. |
| AutoLayoutBuilders.BlockOfOne | Sources/AutoLayoutBuilder/AutoLayoutBuilder.swift:8-10 | An empty block is empty. A one-component block is that component's constraints. |
| AutoLayoutBuilders.BuildArrayIsOneBlock | Sources/AutoLayoutBuilder/AutoLayoutBuilder.swift:13-15 | A loop gives the same list as one block of every iteration's components in order. |
| AutoLayoutBuilders.BuildOptional | Sources/AutoLayoutBuilder/AutoLayoutBuilder.swift:18-20 | A false `if` contributes nothing. |
| AutoLayoutBuilders.BranchesAreBlocks | Sources/AutoLayoutBuilder/AutoLayoutBuilder.swift:18-35 | A present optional, both `if`/`else` branches and `#available` flatten like a block. |
| StackableViews.Bare | Sources/AutoLayoutBuilder/StackView/StackableView.swift:10-13 | A bare view is its own `view` and `originalView`. |
| StackableViews.StackedView | Sources/AutoLayoutBuilder/StackView/StackableView.swift:65-73 | A wrapper's `view` is the new container, which is distinct from the wrapped view. It keeps the wrapped `originalView`. |
| StackableViews.WrappersKeepOriginalView | Sources/AutoLayoutBuilder/StackView/StackableView.swift:16-62 | All seven wrappers keep the input's `originalView` and put it in a container that is not the wrapped view. |
| StackableViews.TopPins | Sources/AutoLayoutBuilder/StackView/StackableView.swift:16-21 | `top(p)` pins leading = 0, trailing = 0, top = p, and bottom ≤ 0 against the container. |
| StackableViews.LeadingPins | Sources/AutoLayoutBuilder/StackView/StackableView.swift:23-28 | `leading(p)` pins top = 0, bottom = 0, leading = p, and trailing ≤ 0. |
| StackableViews.TrailingPins | Sources/AutoLayoutBuilder/StackView/StackableView.swift:30-35 | `trailing(p)` pins top = 0, bottom = 0, trailing = −p, and leading ≥ 0. |
| StackableViews.BottomPins | Sources/AutoLayoutBuilder/StackView/StackableView.swift:37-42 | `bottom(p)` pins leading = 0, trailing = 0, bottom = −p, and top ≥ 0. |
| StackableViews.CenteredPins | Sources/AutoLayoutBuilder/StackView/StackableView.swift:44-50 | `centered(p)` pins centerX = centerY = 0, top and leading ≥ p, and trailing and bottom ≤ −p. |
| StackableViews.PaddingPins | Sources/AutoLayoutBuilder/StackView/StackableView.swift:52-56 | `padding(p)` pins leading = p, trailing = −p, and top = bottom = 0. |
| StackableViews.VerticalPaddingPins | Sources/AutoLayoutBuilder/StackView/StackableView.swift:58-62 | `verticalPadding(p)` pins leading = trailing = 0, top = p and bottom = −p. |
| StackableViewBuilders.BuildOptional | Sources/AutoLayoutBuilder/StackableViewBuilder.swift:15-17 | A false `if` contributes nothing. A true one contributes its views. |
| StackableViewBuilders.BuildArrayInOrder | Sources/AutoLayoutBuilder/StackableViewBuilder.swift:11-13 | Each iteration's views appear as one contiguous run, in order. A view is in the result iff some iteration has it. |
| StackableViewBuilders.BuildArrayAppend | Sources/AutoLayoutBuilder/StackableViewBuilder.swift:11-13 | Flattening distributes over concatenation of the iterations. |
| Stacks.MatchesSharesIdentity | Sources/AutoLayoutBuilder/StackView.swift:97-104 | The four-way comparison holds iff the stored item and the target share a view identity. It is symmetric and reflexive. |
| Stacks.StackedIndex | Sources/AutoLayoutBuilder/StackView.swift:97-104 | Returns the first index whose item matches. It is nil iff no item matches. |
| Stacks.AddThenRemove | Sources/AutoLayoutBuilder/StackView.swift:38-63 | Adding a view that matches no stored item, then removing it, finds it at the end and restores the list. |
| Stacks.StackView.constructor | Sources/AutoLayoutBuilder/StackView.swift:21-32 | The stacked views are the builder's, and the arranged subviews are their `view`s. Spacing is 0, with no custom spacing. |
| Stacks.StackView.AddStackedView | Sources/AutoLayoutBuilder/StackView.swift:38-42 | Appends to both lists and leaves the other settings unchanged. |
| Stacks.StackView.InsertStackedViewAt | Sources/AutoLayoutBuilder/StackView.swift:44-48 | Inserts at position index + 1 in both lists. Earlier items stay and later ones shift by one. |
| Stacks.StackView.InsertStackedViewAfter | Sources/AutoLayoutBuilder/StackView.swift:50-54 | Inserts right after the first item matching the bare `after.view`. Does nothing if none matches. |
| Stacks.StackView.RemoveStackedView | Sources/AutoLayoutBuilder/StackView.swift:56-63 | Removes exactly the first matching item from both lists. Does nothing if none matches. |
| Stacks.StackView.HideStackedView | Sources/AutoLayoutBuilder/StackView.swift:65-68 | Hides the first matching item's view. The order, the length and the spacing are unchanged. |
| Stacks.StackView.ShowStackedView | Sources/AutoLayoutBuilder/StackView.swift:70-73 | Unhides the first matching item's view. Nothing else changes. |
| Stacks.StackView.ReplaceStackedViews | Sources/AutoLayoutBuilder/StackView.swift:75-83 | After removing every stored item through the lookup and adding the new ones, the list is exactly the new views in order. This holds even when stored items share identities. |
| Stacks.StackView.SetSpacing | Sources/AutoLayoutBuilder/StackView.swift:85-88 | Sets the spacing and nothing else. |
| Stacks.StackView.SetSpacingAfter | Sources/AutoLayoutBuilder/StackView.swift:90-95 | Sets the custom spacing after the first matching item's view. Does nothing if none matches. |
| Stacks.ScrollableStackView.constructor | Sources/AutoLayoutBuilder/StackView.swift:117-132 | Creates a fresh inner stack with the builder's views and axis. Its pins are the constraints of the two nested `addSubview` blocks. |
| Stacks.ScrollablePinsMeaning | Sources/AutoLayoutBuilder/StackView.swift:121-131 | The scroll view's four edges equal the scrollable view's. The stack view's four edges equal the scroll view's. The stack view's width (vertical axis) or height (horizontal axis) equals the scrollable view's, with multiplier 1 and constant 0. |
| Stacks.ScrollableStackView.AddStackedViewAsWritten | Sources/AutoLayoutBuilder/StackView.swift:134-137 | As written, stores the bare container `view.view` and drops the wrapper's `originalView`. |
| Stacks.ScrollableStackView.AddStackedView | Sources/AutoLayoutBuilder/StackView.swift:134-137 | Corrected: appends the stackable view itself, as `StackView` does. |
| Stacks.ScrollableStackView.InsertStackedViewAt | Sources/AutoLayoutBuilder/StackView.swift:139-142 | Forwards: inserts at index + 1 in the inner stack. |
| Stacks.ScrollableStackView.InsertStackedViewAfter | Sources/AutoLayoutBuilder/StackView.swift:144-147 | Forwards the insert-after to the inner stack. |
| Stacks.ScrollableStackView.RemoveStackedView | Sources/AutoLayoutBuilder/StackView.swift:149-152 | Forwards the removal of the first match. |
| Stacks.ScrollableStackView.HideStackedView | Sources/AutoLayoutBuilder/StackView.swift:154-157 | Forwards the hide. |
| Stacks.ScrollableStackView.ShowStackedView | Sources/AutoLayoutBuilder/StackView.swift:159-162 | Forwards the show. |
| Stacks.ScrollableStackView.ReplaceStackedViews | Sources/AutoLayoutBuilder/StackView.swift:164-167 | Forwards; afterwards the inner list is exactly the new views. |
| Stacks.ScrollableStackView.SetSpacing | Sources/AutoLayoutBuilder/StackView.swift:169-172 | Forwards the spacing. |
| Stacks.ScrollableStackView.SetSpacingAfter | Sources/AutoLayoutBuilder/StackView.swift:174-177 | Forwards the custom spacing. |
| Stacks.WrappedViewLostByScrollableAdd | Sources/AutoLayoutBuilder/StackView.swift:134-137 | Take a wrapped view added as written. A lookup by its original view finds nothing, whereas the wrapper itself would be found at index 0. |
| HeaderFooters.TitleValue | Sources/AutoLayoutBuilder/TableView/TableViewHeaderFooterType.swift:10-13 | `titleValue` is non-nil iff the value is `.title(s)`, and then it is s. |
| HeaderFooters.ViewValue | Sources/AutoLayoutBuilder/TableView/TableViewHeaderFooterType.swift:15-18 | `viewValue` is non-nil iff the value is `.view(v)`, and then it is v. |
| HeaderFooters.AccessorsDetermineValue | Sources/AutoLayoutBuilder/TableView/TableViewHeaderFooterType.swift:5-19 | The two accessors are never both non-nil. Both are nil iff the value is `.none`. Together they rebuild the value. |
| TableRows.DefaultRow | Sources/AutoLayoutBuilder/TableView/TableViewRow.swift:12-13 | A default row has no estimated height and keeps its cell type and capability. |
| TableRows.DefaultReuseIdentifier | Sources/AutoLayoutBuilder/TableView/TableViewRow.swift:12-12 | Default rows share a reuse identifier iff they share a cell type. |
| TableRows.EditableDefaults | Sources/AutoLayoutBuilder/TableView/TableViewRow.swift:29-30 | Editable rows default to `canEdit` true and `editingStyle` `.delete`. |
| TableRows.MovableDefaults | Sources/AutoLayoutBuilder/TableView/TableViewRow.swift:38-45 | Movable rows refine editable ones: editable defaults plus `canMove` true. |
| TableRows.DeleteRow | Sources/AutoLayoutBuilder/TableView/TableViewRow.swift:31-35 | `delete(from:at:)` removes the row at the path from its section and changes no other section. |
| TableRows.DeleteRowLosesOne | Sources/AutoLayoutBuilder/TableView/TableViewRow.swift:31-35 | The table loses exactly that one row (as a multiset) and its row count drops by one. |
| SectionBuilders.BuildBlockRows | Sources/AutoLayoutBuilder/TableView/TableViewSectionBuilder.swift:15-17 | A block of rows lists the rows as elements, in order. |
| SectionBuilders.BuildOptional | Sources/AutoLayoutBuilder/TableView/TableViewSectionBuilder.swift:51-53 | nil contributes nothing, and a value contributes itself. |
| SectionBuilders.FirstHeader | Sources/AutoLayoutBuilder/TableView/TableViewSectionBuilder.swift:68-68 | The header is that of the first header element. It is nil iff there is none. |
| SectionBuilders.FirstFooter | Sources/AutoLayoutBuilder/TableView/TableViewSectionBuilder.swift:69-69 | The footer is that of the first footer element. It is nil iff there is none. |
| SectionBuilders.RowsOf | Sources/AutoLayoutBuilder/TableView/TableViewSectionBuilder.swift:70-70 | A row is kept iff it appears as a row element. |
| SectionBuilders.BuildFinalResult | Sources/AutoLayoutBuilder/TableView/TableViewSectionBuilder.swift:67-72 | The section takes the first header and first footer (or `.none`) and all rows in order. |
| SectionBuilders.RowsOfAppend | Sources/AutoLayoutBuilder/TableView/TableViewSectionBuilder.swift:70-70 | Rows of concatenated blocks are the rows of each block, in order. |
| SectionBuilders.RowsIgnoreHeadersAndFooters | Sources/AutoLayoutBuilder/TableView/TableViewSectionBuilder.swift:70-70 | Interleaving a header or footer element anywhere does not change the rows. |
| SectionBuilders.FirstHeaderAppend | Sources/AutoLayoutBuilder/TableView/TableViewSectionBuilder.swift:68-69 | First header wins and first footer wins: a later block's header or footer counts only if the earlier blocks have none. |
| SectionBuilders.RowsOnlySection | Sources/AutoLayoutBuilder/TableView/TableViewSectionBuilder.swift:67-72 | A section of rows alone has no header, no footer and exactly those rows. |
| SectionBuilders.RowsOfRowElements | Sources/AutoLayoutBuilder/TableView/TableViewSectionBuilder.swift:70-70 | Reducing a block of rows gives back the same rows. |
| SectionBuilders.ExpressionsWrap | Sources/AutoLayoutBuilder/TableView/TableViewSectionBuilder.swift:19-37 | A row, header view, header title, footer view or footer title expression becomes the section with just that row, `.view` or `.title`. |
| TableBuilders.BuildOptional | Sources/AutoLayoutBuilder/TableView/TableViewBuilder.swift:19-21 | nil contributes no sections, and a value contributes its sections. |
| TableBuilders.BuildBlockInOrder | Sources/AutoLayoutBuilder/TableView/TableViewBuilder.swift:11-17 | Each list of sections appears as one contiguous run, in order. `buildArray` equals `buildBlock` over lists. |
| TableBuilders.BuildBlockAppend | Sources/AutoLayoutBuilder/TableView/TableViewBuilder.swift:11-13 | Blocks written one after the other list their sections one after the other. |
| TableManagers.HeightOf | Sources/AutoLayoutBuilder/TableView/TableViewManager.swift:85-95 | The height is automatic iff no estimate is given, and otherwise the estimate. |
| TableManagers.AppendRow | Sources/AutoLayoutBuilder/TableView/TableViewManager.swift:125-127 | Appends the row to one section and leaves the others unchanged. |
| TableManagers.AppendRowThenDelete | Sources/AutoLayoutBuilder/TableView/TableViewManager.swift:123-134 | An insert puts the new row at the reported path and adds exactly that row to the table. Deleting at that path restores the table. |
| TableManagers.MoveRow | Sources/AutoLayoutBuilder/TableView/TableViewManager.swift:171-180 | A move leaves every section other than the source and destination unchanged. |
| TableManagers.MoveRowKeepsRows | Sources/AutoLayoutBuilder/TableView/TableViewManager.swift:171-180 | The row lands at the destination. No row is lost or duplicated (as a multiset), and the total count is kept. |
| TableManagers.MoveWithinSection | Sources/AutoLayoutBuilder/TableView/TableViewManager.swift:171-180 | A move within one section reorders it and leaves the other sections alone. |
| TableManagers.MoveRowBack | Sources/AutoLayoutBuilder/TableView/TableViewManager.swift:171-180 | Moving the row back from where it landed is allowed and restores the table. |
| TableManagers.RowEditingStyle | Sources/AutoLayoutBuilder/TableView/TableViewManager.swift:152-154 | A row with no capability has editing style `.none`. |
| TableManagers.RowCanEdit | Sources/AutoLayoutBuilder/TableView/TableViewManager.swift:156-158 | A row with no capability cannot be edited. |
| TableManagers.RowCanMove | Sources/AutoLayoutBuilder/TableView/TableViewManager.swift:160-162 | Only a movable row can move. |
| TableManagers.RowMoveTarget | Sources/AutoLayoutBuilder/TableView/TableViewManager.swift:164-169 | A row that is not movable keeps the proposed path. |
| TableManagers.CapabilityAnswers | Sources/AutoLayoutBuilder/TableView/TableViewManager.swift:152-169 | Plain, editable and movable rows built with the defaults answer edit, move, style and target as the protocol defaults say. |
| TableManagers.TableViewManager.constructor | Sources/AutoLayoutBuilder/TableView/TableViewManager.swift:15-25 | Starts with the built sections and no insert factory. |
| TableManagers.TableViewManager.SetOnInsertRow | Sources/AutoLayoutBuilder/TableView/TableViewManager.swift:71-74 | Sets the factory and leaves the sections unchanged. |
| TableManagers.TableViewManager.UpdateSections | Sources/AutoLayoutBuilder/TableView/TableViewManager.swift:76-79 | Replaces the whole section list. |
| TableManagers.TableViewManager.CommitEditingStyle | Sources/AutoLayoutBuilder/TableView/TableViewManager.swift:121-138 | Insert with a factory appends its row and reports the new last path. Delete removes the row at the path and reports that path. Any other style, or insert with no factory, changes nothing. |
| TableManagers.TableViewManager.MoveRowAt | Sources/AutoLayoutBuilder/TableView/TableViewManager.swift:171-180 | The sections become the table with the source row removed and inserted at the destination. |
| TableManagers.RowQueries | Sources/AutoLayoutBuilder/TableView/TableViewManager.swift:85-169 | The counts bound a valid path. A row's estimated height comes from the row. An editable or movable row answers edit and editing style from its own `canEdit` and `editingStyle`. A movable row answers move from its `canMove` and the move target from its `onMove`. A plain row cannot edit or move and has no editing style, and a row that is not movable keeps the proposed target. |
| TableManagers.HeaderFooterQueries | Sources/AutoLayoutBuilder/TableView/TableViewManager.swift:89-107 | A header (footer) is offered as a title or a view, never both. A title header (footer) offers its text. A view header (footer) is offered as that view, with the height of its estimate. Any other header (footer) offers no view, and its height is automatic. |

Remarks:
- `insertStackedView(_:at:)` inserts at `index + 1`. The only call to it in the source is from `insertStackedView(_:after:)` (Sources/AutoLayoutBuilder/StackView.swift:50-54), which passes the index of the view to insert after. It is modelled as written.
- `UpdateConstantsRetargetsEdges` records a design point. `edges(insets)` negates the right and bottom insets, whereas `updateConstants(to:)` uses minus their absolute value. The two agree only for non-negative right and bottom insets.

## Left out

- Host effects: `translatesAutoresizingMaskIntoConstraints` writes, constraint activation and deactivation, and solving. Also `addSubview`/`removeFromSuperview`, `setCustomSpacing` on the host stack, and the table view's `register`/`reloadData`/`insertRows`/`deleteRows`, dequeueing, `cellForRow` and `didSelectRow`. Only the logical state each is paired with is modelled.
- Swipe-action configurations and cell, header and footer configuration closures: host objects with no logic of the library's own.
- The `onSectionsUpdated` observer callbacks and `reloadSections`: notification and host registration only.
- `builder op Anchor` (Operators.swift lines 17-19, 57-59, 97-99): it calls `equalTo` with an `Anchor`, and no such overload exists in the modelled files, so its meaning cannot be pinned down.
- Anchorable+NSLayoutConstraint.swift is not part of this model: it calls builder overloads that are not defined in the modelled files.
- UIView+AutoLayoutBuilder.swift, TableView.swift, TableViewHeader.swift and TableViewFooter.swift are not part of this model: they are host plumbing and reuse-pool dequeueing.
- `Anchorable.anchor(_:)` is not defined in the modelled files. `Anchors.ValueConstraint` takes `anchorable.anchor(.notAnAttribute)` (Sources/AutoLayoutBuilder/Anchor.swift:65) to be the anchor on the same item with attribute `notAnAttribute`. That second anchor resolves to no item, so only its attribute reaches the constraint.
- `withEach` is not defined in the modelled files. It is taken to apply its closure to each element of `constraints`, in order.
- `BuildingProtocol.SingleEdgesRoute` and `BuildingProtocol.ProtocolCombinatorsFollowTable`: no conformer of `ConstraintBuilding` appears in the modelled files. Agreement with the table is proved for the conformer whose build functions are the initialisers. For any other conformer, only `BuildingProtocol.CombinatorsChainFirstEdge` applies.
- `Constrainables.ConstraintFor`: `constraint(for:update:)` accepts any closure. The model takes one of the two edits the library itself passes, setting the constant or setting the priority. Other caller closures are not modelled.
- `Constrainables.WithEach`: the closure is likewise one of the two updates the library passes, the edge constants or one priority for all. Other caller closures are not modelled.
- `Stacks.ScrollableStackView.constructor`: the scrollable view, its scroll view and its stack view are parameters, distinct from one another. The order in which the host activates the pins of the two nested blocks is host work. The list gives the outer block's constraints first.
- Closures are data. A movable row's `onMove` is a function value. The insert factory `onInsertRow` is modelled as the row it returns. The work closures of `configure`/`collect`/`store` are the `Constrainable` their builder returned.
- Floating point: `CGFloat` and `UILayoutPriority` are reals. Rounding is not modelled; the library only negates, takes `abs` and compares.
- The bare property spellings (`$0.bottom`, `$0.edges`) are taken as the calls with default arguments, which is what they return.
- `Anchors.AnchorConstraint`: the assertion failure is returned as an error. In a build without assertions the host would make the constraint anyway; that path is not modelled.
- `ConstraintBuilders.Combine`: the same-owner `assert` is a precondition. Combining builders of different owners in a build without assertions is not modelled.
- `ConstraintBuilders.BaselineBuilderResolves`: against a y anchor it states only that exactly one constraint results, not its fields.
- `StackableViews.StackedView`: the fresh container view is a parameter, distinct from the wrapped view. Its `addSubview` is host work.
- `Stacks.StackView.constructor`: the initial hidden state of the views comes from the host. Here it is a parameter. The host's pinning of the inner `UIStackView` to the edges is left out.
- `Stacks.StackView.RemoveStackedView`: the arranged subview is removed by position, as `stackedViews` is. The host removes it by identity, which picks the same position while the two lists are in step.
- `Stacks.StackView.InsertStackedViewAt`: `index + 1` must be a valid insertion position. The Swift array traps otherwise. The method is public, and its contract is the as-written `index + 1` behaviour, not that of Swift's `insert(_:at:)`. A caller passing `at: 0` gets the view in second place. `at: 0` on an empty stack, and `at:` the current count, both trap. The source does not say whether that is intended for public callers, so it is not listed as a finding.
- `TableManagers.TableViewManager.CommitEditingStyle`: the index path must name a section (insert) or a row (delete). The Swift array traps otherwise.
- `TableManagers.TableViewManager.MoveRowAt`: the source must be a row and the destination slot must exist once the source is out. UIKit only proposes such moves.
- `SectionBuilders.BuildFinalResult`: `TableViewSection.init(builder:)` copies the built section's three fields. It is the identity and is not a separate member.
- Concurrency and threading: single main-thread use is assumed.

## Findings

| source | as written | input that shows it | evidently intended | confidence | as-written member | corrected member |
|---|---|---|---|---|---|---|
| Sources/AutoLayoutBuilder/StackView.swift:134-137 | `ScrollableStackView.addStackedView` forwards `view.view`, which drops the wrapper's `originalView` | add `v.top()` to a scrollable stack, then `removeStackedView(v)`: the lookup does not find it, while on `StackView` it does | forward `view` itself, as every other `ScrollableStackView` method does | not executed | Stacks.ScrollableStackView.AddStackedViewAsWritten | Stacks.ScrollableStackView.AddStackedView |
