/**
 * `StackView` and `ScrollableStackView`: an ordered list of stacked views kept in step with the
 * host stack view's arranged subviews, searched by any of the stackable's two identities.
 */
module Stacks {
  import opened Wrappers
  import opened Lists
  import opened StackableViews
  import Anchors
  import ConstraintBuilders
  import EdgeBuilders
  import AnchorableCombinators
  import CombinatorTable
  import Geometry

  datatype Axis = Horizontal | Vertical

  /** The four identity comparisons `stackedIndex` tries on each stored item. */
  predicate Matches(stored: StackableView, target: StackableView) {
    || stored.view == target.originalView
    || stored.originalView == target.originalView
    || stored.view == target.view
    || stored.originalView == target.view
  }

  /** An item matches a target exactly when they share a view among their two identities. */
  lemma MatchesSharesIdentity(stored: StackableView, target: StackableView)
    ensures Matches(stored, target) <==> {stored.view, stored.originalView} * {target.view, target.originalView} != {}
    ensures Matches(stored, target) <==> Matches(target, stored)
    ensures Matches(stored, stored)
  {
    var common := {stored.view, stored.originalView} * {target.view, target.originalView};
    if Matches(stored, target) {
      if stored.view == target.originalView || stored.view == target.view {
        assert stored.view in common;
      } else {
        assert stored.originalView in common;
      }
    }
  }

  /** `stackedIndex(for:)`: the first stored item matching the target, if any. */
  function StackedIndex(items: seq<StackableView>, target: StackableView): (r: Option<nat>)
    ensures r.Some? ==>
      && r.value < |items|
      && Matches(items[r.value], target)
      && forall j :: 0 <= j < r.value ==> !Matches(items[j], target)
    ensures r.None? <==> forall j :: 0 <= j < |items| ==> !Matches(items[j], target)
  {
    if |items| == 0 then None
    else if Matches(items[0], target) then Some(0)
    else match StackedIndex(items[1..], target)
      case None => None
      case Some(i) => Some(i + 1)
  }

  /** An item added at the end can be found again and removed, giving back the old list, when nothing before it matches it. */
  lemma AddThenRemove(items: seq<StackableView>, v: StackableView)
    requires forall j :: 0 <= j < |items| ==> !Matches(items[j], v)
    ensures StackedIndex(items + [v], v) == Some(|items|)
    ensures RemoveAt(items + [v], |items|) == items
  {
    MatchesSharesIdentity(v, v);
    var r := StackedIndex(items + [v], v);
    assert (items + [v])[|items|] == v;
    assert r.Some? && r.value >= |items| by {
      forall j | 0 <= j < |items| ensures !Matches((items + [v])[j], v) {
        assert (items + [v])[j] == items[j];
      }
    }
  }

  /** The host arranged-subview list that `stackedViews` must agree with. */
  function ViewsOf(items: seq<StackableView>): (r: seq<ViewId>)
    ensures |r| == |items| && forall i :: 0 <= i < |items| ==> r[i] == items[i].view
  {
    seq(|items|, i requires 0 <= i < |items| => items[i].view)
  }

  /** The host state a stack operation on the list leaves alone. */
  datatype Appearance = Appearance(spacing: real, customSpacing: map<ViewId, real>, hidden: set<ViewId>)

  class StackView {
    const axis: Axis
    var stackedViews: seq<StackableView>
    /** The host `UIStackView.arrangedSubviews`. */
    var arranged: seq<ViewId>
    var spacing: real
    /** `setCustomSpacing(_:after:)`, keyed by the arranged view. */
    var customSpacing: map<ViewId, real>
    /** The views whose `isHidden` is set. */
    var hidden: set<ViewId>

    /** The arranged subviews are the stacked views' `view`s, in order. */
    predicate Valid()
      reads this
    {
      arranged == ViewsOf(stackedViews)
    }

    function Settings(): Appearance
      reads this
    {
      Appearance(spacing, customSpacing, hidden)
    }

    /** `init(axis:subviews:)`: `hidden` is the set of views already hidden when the stack is made. */
    constructor(axis: Axis, subviews: seq<StackableView>, hidden: set<ViewId>)
      ensures Valid() && stackedViews == subviews && this.axis == axis
      ensures Settings() == Appearance(0.0, map[], hidden)
    {
      this.axis := axis;
      stackedViews := subviews;
      spacing := 0.0;
      customSpacing := map[];
      this.hidden := hidden;
      arranged := [];
      new;
      var i := 0;
      while i < |subviews|
        invariant 0 <= i <= |subviews|
        invariant arranged == ViewsOf(subviews[..i])
        invariant stackedViews == subviews && Settings() == Appearance(0.0, map[], hidden)
      {
        arranged := arranged + [subviews[i].view];
        i := i + 1;
      }
      assert subviews[..i] == subviews;
    }

    method AddStackedView(view: StackableView)
      requires Valid()
      modifies this
      ensures Valid() && Settings() == old(Settings())
      ensures stackedViews == old(stackedViews) + [view]
    {
      stackedViews := stackedViews + [view];
      arranged := arranged + [view.view];
    }

    /** `insertStackedView(_:at:)` puts the view at position `index + 1`. */
    method InsertStackedViewAt(view: StackableView, index: int)
      requires Valid() && 0 <= index + 1 <= |stackedViews|
      modifies this
      ensures Valid() && Settings() == old(Settings())
      ensures stackedViews == InsertAt(old(stackedViews), index + 1, view)
    {
      stackedViews := InsertAt(stackedViews, index + 1, view);
      arranged := InsertAt(arranged, index + 1, view.view);
    }

    /** `insertStackedView(_:after:)` searches for the bare `after.view`, and inserts right after the first match. */
    method InsertStackedViewAfter(view: StackableView, after: StackableView)
      requires Valid()
      modifies this
      ensures Valid() && Settings() == old(Settings())
      ensures match StackedIndex(old(stackedViews), Bare(after.view))
        case None => stackedViews == old(stackedViews)
        case Some(i) => stackedViews == InsertAt(old(stackedViews), i + 1, view)
    {
      var index := StackedIndex(stackedViews, Bare(after.view));
      if index.Some? {
        InsertStackedViewAt(view, index.value);
      }
    }

    /** `removeStackedView` drops the first matching item from both lists. */
    method RemoveStackedView(view: StackableView)
      requires Valid()
      modifies this
      ensures Valid() && Settings() == old(Settings())
      ensures match StackedIndex(old(stackedViews), view)
        case None => stackedViews == old(stackedViews)
        case Some(i) => stackedViews == RemoveAt(old(stackedViews), i)
    {
      var index := StackedIndex(stackedViews, view);
      if index.Some? {
        arranged := RemoveAt(arranged, index.value);
        stackedViews := RemoveAt(stackedViews, index.value);
      }
    }

    /** `hideStackedView` hides the first matching item's view; the list is untouched. */
    method HideStackedView(view: StackableView)
      requires Valid()
      modifies this
      ensures Valid() && stackedViews == old(stackedViews)
      ensures spacing == old(spacing) && customSpacing == old(customSpacing)
      ensures match StackedIndex(stackedViews, view)
        case None => hidden == old(hidden)
        case Some(i) => hidden == old(hidden) + {stackedViews[i].view}
    {
      var index := StackedIndex(stackedViews, view);
      if index.Some? {
        hidden := hidden + {stackedViews[index.value].view};
      }
    }

    /** `showStackedView` unhides the first matching item's view; the list is untouched. */
    method ShowStackedView(view: StackableView)
      requires Valid()
      modifies this
      ensures Valid() && stackedViews == old(stackedViews)
      ensures spacing == old(spacing) && customSpacing == old(customSpacing)
      ensures match StackedIndex(stackedViews, view)
        case None => hidden == old(hidden)
        case Some(i) => hidden == old(hidden) - {stackedViews[i].view}
    {
      var index := StackedIndex(stackedViews, view);
      if index.Some? {
        hidden := hidden - {stackedViews[index.value].view};
      }
    }

    /**
     * `replaceStackedViews`: removes every stored item through `removeStackedView`, then adds the
     * new ones. Each removal finds the item it was given at the head of what is left.
     */
    method ReplaceStackedViews(views: seq<StackableView>)
      requires Valid()
      modifies this
      ensures Valid() && Settings() == old(Settings())
      ensures stackedViews == views
    {
      var old_ := stackedViews;
      var k := 0;
      while k < |old_|
        invariant 0 <= k <= |old_|
        invariant Valid() && Settings() == old(Settings())
        invariant stackedViews == old_[k..]
      {
        MatchesSharesIdentity(old_[k], old_[k]);
        assert StackedIndex(stackedViews, old_[k]) == Some(0);
        RemoveStackedView(old_[k]);
        assert RemoveAt(old_[k..], 0) == old_[k + 1..];
        k := k + 1;
      }
      var j := 0;
      while j < |views|
        invariant 0 <= j <= |views|
        invariant Valid() && Settings() == old(Settings())
        invariant stackedViews == views[..j]
      {
        AddStackedView(views[j]);
        assert views[..j + 1] == views[..j] + [views[j]];
        j := j + 1;
      }
      assert views[..j] == views;
    }

    /** `spacing(_:)` sets the spacing between all arranged views. */
    method SetSpacing(spacing: real)
      requires Valid()
      modifies this
      ensures Valid() && stackedViews == old(stackedViews)
      ensures Settings() == old(Settings()).(spacing := spacing)
    {
      this.spacing := spacing;
    }

    /** `spacing(_:after:)` sets the custom spacing after the first matching item's view, if any. */
    method SetSpacingAfter(spacing: real, after: StackableView)
      requires Valid()
      modifies this
      ensures Valid() && stackedViews == old(stackedViews)
      ensures this.spacing == old(this.spacing) && hidden == old(hidden)
      ensures match StackedIndex(stackedViews, after)
        case None => customSpacing == old(customSpacing)
        case Some(i) => customSpacing == old(customSpacing)[stackedViews[i].view := spacing]
    {
      var index := StackedIndex(stackedViews, after);
      if index.Some? {
        customSpacing := customSpacing[stackedViews[index.value].view := spacing];
      }
    }
  }

  /**
   * The constraints `ScrollableStackView.init` builds, with `host` the scrollable view itself and
   * `scrollView` and `stackView` the views it creates: the scroll view inside `host`, the stack
   * view inside the scroll view. The scroll view's edges equal its superview's; the stack view's
   * width (vertical axis) or height (horizontal axis) equals the host's; the stack view's edges
   * equal its superview's.
   */
  function ScrollablePins(axis: Axis, host: ViewId, scrollView: ViewId, stackView: ViewId): seq<Anchors.Constraint>
    requires host != scrollView && host != stackView && scrollView != stackView
  {
    var h: ConstraintBuilders.Hierarchy := map[scrollView := host, stackView := scrollView];
    var scroll, stacked := Anchors.View(scrollView), Anchors.View(stackView);
    ConstraintBuilders.EqualTo(AnchorableCombinators.Edges(scroll), ConstraintBuilders.ToSuperview, h)
    + ConstraintBuilders.EqualTo(if axis == Vertical then EdgeBuilders.Width(stacked) else EdgeBuilders.Height(stacked),
                                 ConstraintBuilders.ToItem(Anchors.View(host)), h)
    + ConstraintBuilders.EqualTo(AnchorableCombinators.Edges(stacked), ConstraintBuilders.ToSuperview, h)
  }

  /** `a`'s edges equal to `b`'s, as `$0.edges == Superview()` makes them once `a` is inside `b`. */
  function EdgesEqual(a: ViewId, b: ViewId): seq<Anchors.Constraint> {
    var v, s := Anchors.View(a), Some(Anchors.View(b));
    [ Anchors.Constraint(v, Anchors.Top, Anchors.Equal, s, Anchors.Top, 1.0, 0.0, Anchors.Required),
      Anchors.Constraint(v, Anchors.Leading, Anchors.Equal, s, Anchors.Leading, 1.0, 0.0, Anchors.Required),
      Anchors.Constraint(v, Anchors.Trailing, Anchors.Equal, s, Anchors.Trailing, 1.0, 0.0, Anchors.Required),
      Anchors.Constraint(v, Anchors.Bottom, Anchors.Equal, s, Anchors.Bottom, 1.0, 0.0, Anchors.Required) ]
  }

  /**
   * The scroll view fills the host, the stack view fills the scroll view, and the stack view
   * matches the host along the axis it does not scroll: its width for a vertical stack, its
   * height for a horizontal one.
   */
  lemma ScrollablePinsMeaning(axis: Axis, host: ViewId, scrollView: ViewId, stackView: ViewId)
    requires host != scrollView && host != stackView && scrollView != stackView
    ensures var fixed := if axis == Vertical then Anchors.Width else Anchors.Height;
      ScrollablePins(axis, host, scrollView, stackView) ==
        EdgesEqual(scrollView, host)
        + [Anchors.Constraint(Anchors.View(stackView), fixed, Anchors.Equal, Some(Anchors.View(host)), fixed, 1.0, 0.0, Anchors.Required)]
        + EdgesEqual(stackView, scrollView)
  {
    var h: ConstraintBuilders.Hierarchy := map[scrollView := host, stackView := scrollView];
    var scroll, stacked := Anchors.View(scrollView), Anchors.View(stackView);
    EdgesFillSuperview(scroll, h);
    EdgesFillSuperview(stacked, h);
    MatchesHost(axis, host, stacked, h);
  }

  /** `$0.width == self` (vertical) or `$0.height == self` (horizontal). */
  lemma MatchesHost(axis: Axis, host: ViewId, v: Anchors.Item, h: ConstraintBuilders.Hierarchy)
    ensures var fixed := if axis == Vertical then Anchors.Width else Anchors.Height;
      ConstraintBuilders.EqualTo(if axis == Vertical then EdgeBuilders.Width(v) else EdgeBuilders.Height(v),
                                 ConstraintBuilders.ToItem(Anchors.View(host)), h)
      == [Anchors.Constraint(v, fixed, Anchors.Equal, Some(Anchors.View(host)), fixed, 1.0, 0.0, Anchors.Required)]
  {
    EdgeBuilders.SingleEdgesFollowTable(v, 0.0, 1.0, Anchors.Required);
    if axis == Vertical {
      ConstraintBuilders.ResolveToItem(EdgeBuilders.Width(v), Anchors.Equal, Anchors.View(host), h);
    } else {
      ConstraintBuilders.ResolveToItem(EdgeBuilders.Height(v), Anchors.Equal, Anchors.View(host), h);
    }
  }

  /** `$0.edges == Superview()` for a view with a superview. */
  lemma EdgesFillSuperview(v: Anchors.Item, h: ConstraintBuilders.Hierarchy)
    requires v.View? && v.id in h
    ensures ConstraintBuilders.EqualTo(AnchorableCombinators.Edges(v), ConstraintBuilders.ToSuperview, h)
      == EdgesEqual(v.id, h[v.id])
  {
    AnchorableCombinators.AnchorableCombinatorsFollowTable(v, Geometry.ZeroInsets, 0.0, Geometry.ZeroPoint, Geometry.ZeroSize,
      1.0, Anchors.Required, Anchors.Required, Anchors.Required, Anchors.Required);
    CombinatorTable.EdgesToSuperview(v, Geometry.ZeroInsets, Anchors.Required, Anchors.Required, Anchors.Required,
      Anchors.Required, Anchors.Equal, h);
  }

  /** `ScrollableStackView`: a `StackView` inside a scroll view, forwarding every operation. */
  class ScrollableStackView {
    const stack: StackView
    /** The scrollable view itself, and the scroll view and stack view it creates. */
    const host: ViewId
    const scrollView: ViewId
    const stackView: ViewId
    /** The constraints the initialiser builds. */
    const pins: seq<Anchors.Constraint>

    predicate Valid()
      reads this, stack
    {
      stack.Valid()
    }

    /** `host`, `scrollView` and `stackView` are the three views the initialiser makes, so they are distinct. */
    constructor(axis: Axis, subviews: seq<StackableView>, hidden: set<ViewId>, host: ViewId, scrollView: ViewId, stackView: ViewId)
      requires host != scrollView && host != stackView && scrollView != stackView
      ensures Valid() && fresh(stack)
      ensures stack.stackedViews == subviews && stack.axis == axis
      ensures stack.Settings() == Appearance(0.0, map[], hidden)
      ensures this.host == host && this.scrollView == scrollView && this.stackView == stackView
      ensures pins == ScrollablePins(axis, host, scrollView, stackView)
    {
      stack := new StackView(axis, subviews, hidden);
      this.host := host;
      this.scrollView := scrollView;
      this.stackView := stackView;
      pins := ScrollablePins(axis, host, scrollView, stackView);
    }

    /** `addStackedView` as the source writes it: it forwards the bare `view.view`, dropping `originalView`. */
    method AddStackedViewAsWritten(view: StackableView)
      requires Valid()
      modifies stack
      ensures Valid() && stack.Settings() == old(stack.Settings())
      ensures stack.stackedViews == old(stack.stackedViews) + [Bare(view.view)]
    {
      stack.AddStackedView(Bare(view.view));
    }

    /** `addStackedView` forwarding the stackable itself, as every other operation does. */
    method AddStackedView(view: StackableView)
      requires Valid()
      modifies stack
      ensures Valid() && stack.Settings() == old(stack.Settings())
      ensures stack.stackedViews == old(stack.stackedViews) + [view]
    {
      stack.AddStackedView(view);
    }

    method InsertStackedViewAt(view: StackableView, index: int)
      requires Valid() && 0 <= index + 1 <= |stack.stackedViews|
      modifies stack
      ensures Valid() && stack.Settings() == old(stack.Settings())
      ensures stack.stackedViews == InsertAt(old(stack.stackedViews), index + 1, view)
    {
      stack.InsertStackedViewAt(view, index);
    }

    method InsertStackedViewAfter(view: StackableView, after: StackableView)
      requires Valid()
      modifies stack
      ensures Valid() && stack.Settings() == old(stack.Settings())
      ensures match StackedIndex(old(stack.stackedViews), Bare(after.view))
        case None => stack.stackedViews == old(stack.stackedViews)
        case Some(i) => stack.stackedViews == InsertAt(old(stack.stackedViews), i + 1, view)
    {
      stack.InsertStackedViewAfter(view, after);
    }

    method RemoveStackedView(view: StackableView)
      requires Valid()
      modifies stack
      ensures Valid() && stack.Settings() == old(stack.Settings())
      ensures match StackedIndex(old(stack.stackedViews), view)
        case None => stack.stackedViews == old(stack.stackedViews)
        case Some(i) => stack.stackedViews == RemoveAt(old(stack.stackedViews), i)
    {
      stack.RemoveStackedView(view);
    }

    method HideStackedView(view: StackableView)
      requires Valid()
      modifies stack
      ensures Valid() && stack.stackedViews == old(stack.stackedViews)
      ensures stack.spacing == old(stack.spacing) && stack.customSpacing == old(stack.customSpacing)
      ensures match StackedIndex(stack.stackedViews, view)
        case None => stack.hidden == old(stack.hidden)
        case Some(i) => stack.hidden == old(stack.hidden) + {stack.stackedViews[i].view}
    {
      stack.HideStackedView(view);
    }

    method ShowStackedView(view: StackableView)
      requires Valid()
      modifies stack
      ensures Valid() && stack.stackedViews == old(stack.stackedViews)
      ensures stack.spacing == old(stack.spacing) && stack.customSpacing == old(stack.customSpacing)
      ensures match StackedIndex(stack.stackedViews, view)
        case None => stack.hidden == old(stack.hidden)
        case Some(i) => stack.hidden == old(stack.hidden) - {stack.stackedViews[i].view}
    {
      stack.ShowStackedView(view);
    }

    method ReplaceStackedViews(views: seq<StackableView>)
      requires Valid()
      modifies stack
      ensures Valid() && stack.Settings() == old(stack.Settings())
      ensures stack.stackedViews == views
    {
      stack.ReplaceStackedViews(views);
    }

    method SetSpacing(spacing: real)
      requires Valid()
      modifies stack
      ensures Valid() && stack.stackedViews == old(stack.stackedViews)
      ensures stack.Settings() == old(stack.Settings()).(spacing := spacing)
    {
      stack.SetSpacing(spacing);
    }

    method SetSpacingAfter(spacing: real, after: StackableView)
      requires Valid()
      modifies stack
      ensures Valid() && stack.stackedViews == old(stack.stackedViews)
      ensures stack.spacing == old(stack.spacing) && stack.hidden == old(stack.hidden)
      ensures match StackedIndex(stack.stackedViews, after)
        case None => stack.customSpacing == old(stack.customSpacing)
        case Some(i) => stack.customSpacing == old(stack.customSpacing)[stack.stackedViews[i].view := spacing]
    {
      stack.SetSpacingAfter(spacing, after);
    }
  }

  /**
   * Adding a wrapped view to a scrollable stack as written stores only its container, so the
   * view it wraps no longer finds it: removing, hiding or spacing after that view does nothing.
   * Forwarding the stackable itself finds it.
   */
  lemma WrappedViewLostByScrollableAdd(original: ViewId, container: ViewId)
    requires container != original
    ensures var w := Top(Bare(original), container).stackable;
      && StackedIndex([Bare(w.view)], Bare(original)) == None
      && StackedIndex([w], Bare(original)) == Some(0)
  {
    var w := Top(Bare(original), container).stackable;
    assert !Matches(Bare(w.view), Bare(original));
  }
}
