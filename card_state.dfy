/**
 * The invariant the card keeps between calls, and the facts about single
 * updates that the class in `alert_view.dfy` needs to keep it: at most one
 * background-image group is installed, and the log knows where it is; a slot
 * installer leaves exactly the new view in its container.
 */
module CardState {
  import opened Wrappers
  import opened ViewTree
  import opened Constraints
  import opened CardSkeleton
  import opened ActionLayout
  import opened ActionAssignment

  /** `backgroundImageVerticalCentering`: `group` is the position in the log of
      the one installed image group, or `None` when there is none. */
  predicate ImageTracked(log: seq<Entry>, group: Option<nat>) {
    Count(log, ImageGroupPattern) == (if group.Some? then 1 else 0) &&
    (group.Some? ==> group.value < |log| && Matches(log[group.value], ImageGroupPattern))
  }

  /** The card's invariant: a sound tree, each slot holding nothing or the view
      its field names, and at most one image group, tracked. */
  ghost predicate CardValid(tree: Hierarchy, lines: nat, contentView: Option<ClientView>, customView: Option<ClientView>,
                            log: seq<Entry>, imageGroup: Option<nat>) {
    Sound(tree, lines) && SlotHolds(tree.content, contentView) && SlotHolds(tree.custom, customView) &&
    ImageTracked(log, imageGroup)
  }

  /** Appending anything but an image group keeps the image group where it is. */
  lemma TrackedAppend(log: seq<Entry>, group: Option<nat>, e: Entry)
    requires ImageTracked(log, group) && !Matches(e, ImageGroupPattern)
    ensures ImageTracked(log + [e], group)
  {
    CountAppend(log, [e], ImageGroupPattern);
    if group.Some? {
      assert (log + [e])[group.value] == log[group.value];
    }
  }

  /** Growing the log without adding an image group keeps the image group where it is. */
  lemma TrackedGrow(log: seq<Entry>, longer: seq<Entry>, group: Option<nat>)
    requires ImageTracked(log, group) && log <= longer
    requires Count(longer, ImageGroupPattern) == Count(log, ImageGroupPattern)
    ensures ImageTracked(longer, group)
  {
    if group.Some? {
      assert longer[group.value] == log[group.value];
    }
  }

  /** Removing the installed group, if any, and appending a new one leaves exactly
      one group, at the end of the log. */
  lemma TrackedReplace(log: seq<Entry>, group: Option<nat>, e: Entry)
    requires ImageTracked(log, group) && Matches(e, ImageGroupPattern)
    ensures var r := RemovedAt(log, group) + [e];
      ImageTracked(r, Some(|r| - 1)) && Count(r, ImageGroupPattern) == 1
  {
    var kept := RemovedAt(log, group);
    if group.Some? {
      CountRemove(log, group.value, ImageGroupPattern);
    }
    assert Count(kept, ImageGroupPattern) == 0;
    CountAppend(kept, [e], ImageGroupPattern);
    assert (kept + [e])[|kept|] == e;
  }

  /** Replacing the image group keeps the card's invariant, with the new group
      tracked at the end of the log. */
  lemma ImageGroupReplaced(tree: Hierarchy, lines: nat, contentView: Option<ClientView>, customView: Option<ClientView>,
                           log: seq<Entry>, group: Option<nat>, e: Entry, longer: seq<Entry>, moved: Option<nat>)
    requires CardValid(tree, lines, contentView, customView, log, group) && Matches(e, ImageGroupPattern)
    requires longer == RemovedAt(log, group) + [e] && moved == Some(|longer| - 1)
    ensures CardValid(tree, lines, contentView, customView, longer, moved) && Count(longer, ImageGroupPattern) == 1
  {
    TrackedReplace(log, group, e);
  }

  /** `setActionButtons` keeps the card's invariant: the tree stays sound, the
      slots keep their views and the image group stays where it was. */
  lemma ActionsAssignedValid(s: ActionState, cleared: ActionState, arranged: ActionState, cfg: ActionConfig, bs: seq<ClientView>,
                             contentView: Option<ClientView>, customView: Option<ClientView>, group: Option<nat>)
    requires CardValid(s.tree, s.lines, contentView, customView, s.log, group)
    requires cleared == Cleared(s, bs) && arranged == Arranged(cleared, cfg, bs)
    ensures arranged == AssignActions(s, cfg, Some(bs))
    ensures CardValid(arranged.tree, arranged.lines, contentView, customView, arranged.log, group)
  {
    AssignActionsKeeps(s, cfg, Some(bs), contentView, customView);
    TrackedGrow(s.log, arranged.log, group);
  }

  /** The four constraints `setView(content:)` and `setView(custom:)` add to the
      slot container: `H:[v(width)]`, `V:|[v(height)]|` and the two centrings. */
  function SlotEntries(container: View, v: View, width: int, height: int): seq<Entry> {
    [ Entry(container, Chain(H, None, [Item(v, Some(width))], [], None, false)),
      Entry(container, Chain(V, Some(Flush), [Item(v, Some(height))], [], Some(Flush), false)),
      Entry(container, Pin(v, CenterX, container)),
      Entry(container, Pin(v, CenterY, container)) ]
  }

  /** The slot's constraints all go to the slot container, so none is an image group. */
  lemma SlotEntriesKeepTracking(log: seq<Entry>, group: Option<nat>, container: View, v: View, width: int, height: int)
    requires ImageTracked(log, group) && container != Background
    ensures ImageTracked(log + SlotEntries(container, v, width, height), group)
  {
    var es := SlotEntries(container, v, width, height);
    assert forall e <- es :: !Matches(e, ImageGroupPattern);
    CountZero(es, ImageGroupPattern);
    CountAppend(log, es, ImageGroupPattern);
    TrackedGrow(log, log + es, group);
  }

  /** Adding a view that is not yet in the tree only appends it to the container. */
  lemma AddedFresh(h: Hierarchy, p: Container, v: View)
    requires v !in h.All()
    ensures Added(h, p, v) == h.With(p, h.Children(p) + [v])
  {
    DetachedAbsent(h, v);
  }

  /** Two views added one after the other. */
  lemma AddedAllPair(h: Hierarchy, p: Container, vs: seq<View>, a: View, b: View)
    ensures AddedAll(h, p, vs + [a, b]) == Added(Added(AddedAll(h, p, vs), p, a), p, b)
  {
    var w := vs + [a, b];
    assert w[..|w| - 1] == vs + [a];
    assert (vs + [a])[..|vs|] == vs;
  }

  /** Appending one more entry to a log that already extends `base` by `done`. */
  lemma LogSnoc(base: seq<Entry>, done: seq<Entry>, e: Entry)
    ensures base + done + [e] == base + (done + [e])
  {
  }

  /** Appending a step's entries to a log that already extends `base` by `done`. */
  lemma LogStep(base: seq<Entry>, done: seq<Entry>, step: seq<Entry>)
    ensures base + done + step == base + (done + step)
  {
  }

  /** `current?.removeFromSuperview()`. */
  function DetachedSlot(h: Hierarchy, current: Option<ClientView>): Hierarchy {
    if current.Some? then Detached(h, current.value) else h
  }

  /** The slot container `c` other than `s`. */
  function OtherSlot(s: Container): Container
    requires s == ContentBox || s == CustomBox
  {
    if s == ContentBox then CustomBox else ContentBox
  }

  /** `setView(content:)` keeps the card's invariant: when `r` is the tree after
      the old content view leaves and `v` arrives, `v` is the content slot's only
      child, the content field names it and the image group stays tracked. */
  lemma ContentSlotInstalled(h: Hierarchy, n: nat, current: Option<ClientView>, other: Option<ClientView>, v: ClientView,
                             log: seq<Entry>, group: Option<nat>, width: int, height: int,
                             r: Hierarchy, slot: Option<ClientView>, longer: seq<Entry>)
    requires CardValid(h, n, current, other, log, group)
    requires r == Added(DetachedSlot(h, current), ContentBox, v) && slot == Some(v)
    requires longer == log + SlotEntries(ContentContainer, v, width, height)
    ensures CardValid(r, n, slot, other, longer, group) && r.content == [v]
  {
    SlotInstalledChildren(h, ContentBox, current, other, v);
    SlotInstalledSound(h, n, ContentBox, current, v);
    SlotEntriesKeepTracking(log, group, ContentContainer, v, width, height);
  }

  /** `setView(custom:)` keeps the card's invariant, as `ContentSlotInstalled`
      does for the content slot. */
  lemma CustomSlotInstalled(h: Hierarchy, n: nat, current: Option<ClientView>, other: Option<ClientView>, v: ClientView,
                            log: seq<Entry>, group: Option<nat>, width: int, height: int,
                            r: Hierarchy, slot: Option<ClientView>, longer: seq<Entry>)
    requires CardValid(h, n, other, current, log, group)
    requires r == Added(DetachedSlot(h, current), CustomBox, v) && slot == Some(v)
    requires longer == log + SlotEntries(CustomContainer, v, width, height)
    ensures CardValid(r, n, other, slot, longer, group) && r.custom == [v]
  {
    SlotInstalledChildren(h, CustomBox, current, other, v);
    SlotInstalledSound(h, n, CustomBox, current, v);
    SlotEntriesKeepTracking(log, group, CustomContainer, v, width, height);
  }

  /** A slot installer: taking the slot's current view out and adding `v` keeps
      the tree sound. */
  lemma SlotInstalledSound(h: Hierarchy, n: nat, s: Container, current: Option<ClientView>, v: ClientView)
    requires Sound(h, n) && s != BackgroundBox
    ensures Sound(Added(DetachedSlot(h, current), s, v), n)
  {
    if current.Some? {
      DetachedClientSound(h, n, current.value);
    }
    AddedClientSound(DetachedSlot(h, current), n, s, v);
  }

  /** A slot installer changes the set of placed views by exactly the two views
      involved: the slot's old view leaves and `v` arrives. */
  lemma SlotInstalledMembers(h: Hierarchy, s: Container, current: Option<ClientView>, v: ClientView)
    ensures forall x :: x in Added(DetachedSlot(h, current), s, v).All() <==>
      (x in h.All() && (current.None? || x != current.value)) || x == v
  {
    if current.Some? {
      DetachedMembers(h, current.value);
    }
    AddedMembers(DetachedSlot(h, current), s, v);
  }

  /** Removing an application view from its superview keeps the tree sound. */
  lemma DetachedClientSound(h: Hierarchy, n: nat, c: ClientView)
    requires Sound(h, n)
    ensures Sound(Detached(h, c), n)
  {
    DetachedUnique(h, c);
    DetachedBackground(h, c);
    DetachedLinesBelow(h, n, c);
  }

  /** Adding an application view to a container keeps the tree sound. */
  lemma AddedClientSound(h: Hierarchy, n: nat, s: Container, c: ClientView)
    requires Sound(h, n) && s != BackgroundBox
    ensures Sound(Added(h, s, c), n)
  {
    AddedUnique(h, s, c);
    AddedBackground(h, s, c);
    AddedLinesBelow(h, n, s, c);
  }

  lemma DetachedLinesBelow(h: Hierarchy, n: nat, c: View)
    requires LinesBelow(h, n)
    ensures LinesBelow(Detached(h, c), n)
  {
    DetachedMembers(h, c);
  }

  lemma AddedLinesBelow(h: Hierarchy, n: nat, s: Container, c: ClientView)
    requires LinesBelow(h, n)
    ensures LinesBelow(Added(h, s, c), n)
  {
    AddedMembers(h, s, c);
  }

  lemma DetachedMembers(h: Hierarchy, c: View)
    ensures forall x :: x in Detached(h, c).All() <==> x in h.All() && x != c
  {
    DetachedFacts(h, c);
  }

  lemma DetachedBackground(h: Hierarchy, c: ClientView)
    requires HoldsStructure(h.background)
    ensures HoldsStructure(Detached(h, c).background)
  {
    StructureViews(h.background);
    DetachedFacts(h, c);
  }

  lemma AddedBackground(h: Hierarchy, s: Container, c: ClientView)
    requires HoldsStructure(h.background) && s != BackgroundBox
    ensures HoldsStructure(Added(h, s, c).background)
  {
    StructureViews(h.background);
    AddedWithin(h, s, c);
  }

  /** After a slot installer `v` is the slot's only child, and the other slot
      still holds nothing or its own view. */
  lemma SlotInstalledChildren(h: Hierarchy, s: Container, current: Option<ClientView>, other: Option<ClientView>, v: ClientView)
    requires s == ContentBox || s == CustomBox
    requires SlotHolds(h.Children(s), current) && SlotHolds(h.Children(OtherSlot(s)), other)
    ensures var r := Added(DetachedSlot(h, current), s, v);
      r.Children(s) == [v] && SlotHolds(r.Children(OtherSlot(s)), other)
  {
    var d := DetachedSlot(h, current);
    var r := Added(d, s, v);
    if current.Some? {
      SlotEmptied(h, s, current.value);
      DetachedFacts(h, current.value);
    }
    SlotAdded(d, s, v);
    AddedWithin(d, s, v);
    SlotShrinks(h, d, r, s);
    SlotHoldsSubList(r.Children(OtherSlot(s)), h.Children(OtherSlot(s)), other);
  }

  lemma SlotEmptied(h: Hierarchy, s: Container, cur: ClientView)
    requires s == ContentBox || s == CustomBox
    requires SlotHolds(h.Children(s), Some(cur))
    ensures Detached(h, cur).Children(s) == []
  {
    if s == ContentBox {
      assert Detached(h, cur).content == Without(h.content, cur);
    } else {
      assert Detached(h, cur).custom == Without(h.custom, cur);
    }
  }

  lemma SlotAdded(d: Hierarchy, s: Container, v: View)
    requires s == ContentBox || s == CustomBox
    requires d.Children(s) == []
    ensures Added(d, s, v).Children(s) == [v]
  {
    if s == ContentBox {
      assert Detached(d, v).content == [];
    } else {
      assert Detached(d, v).custom == [];
    }
  }

  lemma SlotShrinks(h: Hierarchy, d: Hierarchy, r: Hierarchy, s: Container)
    requires s == ContentBox || s == CustomBox
    requires Within(d, h) && Within(r.With(s, []), d.With(s, []))
    ensures SubList(r.Children(OtherSlot(s)), h.Children(OtherSlot(s)))
  {
    if s == ContentBox {
      assert r.With(s, []).custom == r.custom && d.With(s, []).custom == d.custom;
    } else {
      assert r.With(s, []).content == r.content && d.With(s, []).content == d.content;
    }
  }
}
