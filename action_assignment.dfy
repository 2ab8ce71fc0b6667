/**
 * What one call of `setActionButtons` does to the card as a whole: the view
 * tree stays sound, the slot containers keep the view their field names, the
 * constraint log only grows, separators added by earlier calls survive a
 * non-empty list, and the number of separators grows by what the branch taken
 * creates.
 */
module ActionAssignment {
  import opened Wrappers
  import opened ViewTree
  import opened Constraints
  import opened CardSkeleton
  import opened ActionLayout
  import opened ActionProperties

  /** The first half of the call keeps the tree sound and only removes views:
      the listed buttons, and for an empty list the action container's children. */
  lemma ClearedFacts(s: ActionState, bs: seq<ClientView>)
    requires Sound(s.tree, s.lines)
    ensures var c := Cleared(s, bs);
      Sound(c.tree, c.lines) && c.lines == s.lines && Within(c.tree, s.tree) &&
      (forall x :: x in c.tree.All() ==> x in s.tree.All() && x !in bs) &&
      (|bs| > 0 ==> (forall x :: x in c.tree.All() <==> x in s.tree.All() && x !in bs) && c.log == s.log) &&
      (|bs| == 0 ==> c.tree == Hierarchy(s.tree.background, s.tree.content, s.tree.custom, []) &&
                     c.log == s.log + ClearedEntries())
  {
    var t := DetachedAll(s.tree, bs);
    StructureViews(s.tree.background);
    DetachedAllFacts(s.tree, bs);
    if |bs| == 0 {
      ClearedAction(t);
      DetachedAllFacts(t, t.action);
      var c := Cleared(s, bs);
      assert c.tree == Hierarchy(t.background, t.content, t.custom, []);
      assert SubList(c.tree.action, s.tree.action);
    }
  }

  /** Adding buttons and separators numbered from `n0` up to `n1` to the action
      container of a sound tree keeps it sound once the numbering reaches `n1`. */
  lemma AddedButtonsAndLines(t: Hierarchy, n0: nat, n1: nat, p: seq<View>)
    requires Sound(t, n0) && n0 <= n1
    requires forall v <- p :: (v.Line? && n0 <= v.serial < n1) || v.Client?
    ensures var r := AddedAll(t, ActionBox, p);
      Sound(r, n1) && Within(r.With(ActionBox, []), t.With(ActionBox, [])) &&
      forall x :: x in r.All() <==> x in t.All() || x in p
  {
    StructureViews(t.background);
    AddedAllFacts(t, ActionBox, p);
  }

  /** The second half keeps the tree sound, adds exactly the placed views to it
      and leaves the other containers' lists sub-lists of what they were. */
  lemma ArrangedFacts(s: ActionState, cfg: ActionConfig, bs: seq<ClientView>)
    requires Sound(s.tree, s.lines)
    ensures var m := ModeOf(|bs|, cfg.arrangement);
      var r := Arranged(s, cfg, bs);
      Sound(r.tree, r.lines) && Within(r.tree.With(ActionBox, []), s.tree.With(ActionBox, [])) &&
      r.lines == s.lines + NewLines(cfg.style, m, |bs|) &&
      r.log == s.log + Emitted(cfg, m, bs, s.lines) &&
      forall x :: x in r.tree.All() <==> x in s.tree.All() || x in Placed(cfg.style, m, bs, s.lines)
  {
    var m := ModeOf(|bs|, cfg.arrangement);
    var p := Placed(cfg.style, m, bs, s.lines);
    var n1 := s.lines + NewLines(cfg.style, m, |bs|);
    PlacedFacts(cfg.style, m, bs, s.lines);
    assert forall v <- p :: (v.Line? && s.lines <= v.serial < n1) || v.Client?;
    AddedButtonsAndLines(s.tree, s.lines, n1, p);
  }

  lemma ClearedSound(s: ActionState, bs: seq<ClientView>)
    requires Sound(s.tree, s.lines)
    ensures var c := Cleared(s, bs);
      Sound(c.tree, c.lines) && c.lines == s.lines && Within(c.tree, s.tree)
  {
    ClearedFacts(s, bs);
  }

  lemma ArrangedSound(s: ActionState, cfg: ActionConfig, bs: seq<ClientView>)
    requires Sound(s.tree, s.lines)
    ensures var r := Arranged(s, cfg, bs);
      Sound(r.tree, r.lines) && s.lines <= r.lines &&
      Within(r.tree.With(ActionBox, []), s.tree.With(ActionBox, []))
  {
    ArrangedFacts(s, cfg, bs);
  }

  lemma SubListTrans(a: seq<View>, b: seq<View>, c: seq<View>)
    requires SubList(a, b) && SubList(b, c)
    ensures SubList(a, c)
  {
  }

  /** The log entries of either half never include an image group. */
  lemma NoImageGroupAdded(cfg: ActionConfig, m: Mode, bs: seq<ClientView>, n0: nat)
    requires Fits(m, |bs|)
    ensures Count(ClearedEntries(), ImageGroupPattern) == 0
    ensures Count(Emitted(cfg, m, bs, n0), ImageGroupPattern) == 0
  {
    SetterChainsAreNotImageGroups(TitleTop, 0, 0, 0);
    CountZero(ClearedEntries(), ImageGroupPattern);
    EmittedNoImageGroup(cfg, m, bs, n0);
  }

  lemma AssignedTree(s: ActionState, cfg: ActionConfig, bs: seq<ClientView>,
                     content: Option<ClientView>, custom: Option<ClientView>)
    requires Sound(s.tree, s.lines)
    requires SlotHolds(s.tree.content, content) && SlotHolds(s.tree.custom, custom)
    ensures var r := Arranged(Cleared(s, bs), cfg, bs);
      Sound(r.tree, r.lines) && s.lines <= r.lines &&
      SlotHolds(r.tree.content, content) && SlotHolds(r.tree.custom, custom)
  {
    var c := Cleared(s, bs);
    var r := Arranged(c, cfg, bs);
    ClearedSound(s, bs);
    ArrangedSound(c, cfg, bs);
    SlotsThrough(s.tree, c.tree, r.tree, content, custom);
  }

  /** A tree whose slot lists are sub-lists of a tree's whose slots hold their
      fields' views holds them too. */
  lemma SlotsThrough(s: Hierarchy, c: Hierarchy, r: Hierarchy, content: Option<ClientView>, custom: Option<ClientView>)
    requires Within(c, s) && Within(r.With(ActionBox, []), c.With(ActionBox, []))
    requires SlotHolds(s.content, content) && SlotHolds(s.custom, custom)
    ensures SlotHolds(r.content, content) && SlotHolds(r.custom, custom)
  {
    assert r.With(ActionBox, []).content == r.content && c.With(ActionBox, []).content == c.content;
    assert r.With(ActionBox, []).custom == r.custom && c.With(ActionBox, []).custom == c.custom;
    SubListTrans(r.content, c.content, s.content);
    SubListTrans(r.custom, c.custom, s.custom);
    SlotHoldsSubList(r.content, s.content, content);
    SlotHoldsSubList(r.custom, s.custom, custom);
  }

  lemma AssignedLog(s: ActionState, cfg: ActionConfig, bs: seq<ClientView>)
    ensures var r := Arranged(Cleared(s, bs), cfg, bs);
      s.log <= r.log && Count(r.log, ImageGroupPattern) == Count(s.log, ImageGroupPattern)
  {
    var c := Cleared(s, bs);
    var m := ModeOf(|bs|, cfg.arrangement);
    var e := Emitted(cfg, m, bs, c.lines);
    var cleared := if |bs| == 0 then ClearedEntries() else [];
    assert c.log == s.log + cleared;
    assert Arranged(c, cfg, bs).log == c.log + e;
    NoImageGroupAdded(cfg, m, bs, c.lines);
    CountAppend(s.log, cleared, ImageGroupPattern);
    CountAppend(c.log, e, ImageGroupPattern);
    PrefixAppend(s.log, cleared, e);
  }

  lemma PrefixAppend(a: seq<Entry>, b: seq<Entry>, c: seq<Entry>)
    ensures a <= a + b + c
  {
    assert (a + b + c)[..|a|] == a;
  }

  /** `setActionButtons` keeps the card sound: the tree has no duplicates and only
      numbered separators, the slot containers still hold nothing or their
      field's view, the log only grows and its number of image groups is
      unchanged, and the separator numbering only moves forward. */
  lemma AssignActionsKeeps(s: ActionState, cfg: ActionConfig, buttons: Option<seq<ClientView>>,
                           content: Option<ClientView>, custom: Option<ClientView>)
    requires Sound(s.tree, s.lines)
    requires SlotHolds(s.tree.content, content) && SlotHolds(s.tree.custom, custom)
    ensures var r := AssignActions(s, cfg, buttons);
      Sound(r.tree, r.lines) &&
      SlotHolds(r.tree.content, content) && SlotHolds(r.tree.custom, custom) &&
      s.log <= r.log && Count(r.log, ImageGroupPattern) == Count(s.log, ImageGroupPattern) &&
      s.lines <= r.lines
  {
    if buttons.Some? {
      AssignedTree(s, cfg, buttons.value, content, custom);
      AssignedLog(s, cfg, buttons.value);
    }
  }

  /** After a non-empty list the card holds what it held before, less nothing, plus
      the placed views; a view the list does not name stays in its container;
      in particular every separator the action container held is still there,
      because only an empty list clears the container. */
  lemma NonEmptyListKeepsOthers(s: ActionState, cfg: ActionConfig, bs: seq<ClientView>)
    requires Sound(s.tree, s.lines) && |bs| > 0
    ensures var r := AssignActions(s, cfg, Some(bs));
      var p := Placed(cfg.style, ModeOf(|bs|, cfg.arrangement), bs, s.lines);
      (forall x :: x in r.tree.All() <==> x in s.tree.All() || x in p) &&
      (forall x :: x in s.tree.content && x !in bs ==> x in r.tree.content) &&
      (forall x :: x in s.tree.custom && x !in bs ==> x in r.tree.custom) &&
      (forall x :: x in s.tree.action && x !in bs ==> x in r.tree.action) &&
      (forall x :: x in s.tree.action && x.Line? ==> x in r.tree.action)
  {
    var m := ModeOf(|bs|, cfg.arrangement);
    var p := Placed(cfg.style, m, bs, s.lines);
    PlacedFacts(cfg.style, m, bs, s.lines);
    assert forall v <- p :: (v.Line? && s.lines <= v.serial) || v in bs;
    NonEmptyAssigned(s, cfg, bs);
    RearrangedKeepsOthers(s.tree, s.lines, bs, p);
  }

  /** Detaching the buttons `bs` and then adding `p`, made of those buttons and
      new separators, to the action container keeps every other view where it was. */
  lemma RearrangedKeepsOthers(h: Hierarchy, n: nat, bs: seq<ClientView>, p: seq<View>)
    requires LinesBelow(h, n)
    requires forall v <- p :: (v.Line? && n <= v.serial) || v in bs
    requires forall b <- bs :: b in p
    ensures var r := AddedAll(DetachedAll(h, bs), ActionBox, p);
      (forall x :: x in r.All() <==> x in h.All() || x in p) &&
      (forall x :: x in h.content && x !in bs ==> x in r.content) &&
      (forall x :: x in h.custom && x !in bs ==> x in r.custom) &&
      (forall x :: x in h.action && x !in bs ==> x in r.action) &&
      (forall x :: x in h.action && x.Line? ==> x in r.action)
  {
    var t := DetachedAll(h, bs);
    var r := AddedAll(t, ActionBox, p);
    DetachedAllFacts(h, bs);
    AddedAllFacts(t, ActionBox, p);
    DetachedAllLists(h, bs);
    WithoutAllMembers(h.content, bs);
    WithoutAllMembers(h.custom, bs);
    WithoutAllMembers(h.action, bs);
    forall x | x in h.All() && x !in bs
      ensures x !in p
    {
      if x.Line? {
        assert x.serial < n;
      }
    }
    forall x | x in t.content || x in t.custom
      ensures x in t.content ==> x in r.content
      ensures x in t.custom ==> x in r.custom
    {
      assert x in t.All();
      AddedAllKeepsSlots(t, p, x);
    }
    forall x | x in t.action
      ensures x in r.action
    {
      AddedAllKeepsAction(t, p, x);
    }
  }

  /** With distinct buttons the result has a closed form: every list loses the
      listed buttons and the action container then gains the placed views at its
      end, so its separator count grows by exactly what the branch creates. */
  lemma NonEmptyListClosedForm(s: ActionState, cfg: ActionConfig, bs: seq<ClientView>)
    requires Sound(s.tree, s.lines) && |bs| > 0 && Distinct(bs)
    ensures var r := AssignActions(s, cfg, Some(bs));
      var m := ModeOf(|bs|, cfg.arrangement);
      r.tree == Hierarchy(s.tree.background, WithoutAll(s.tree.content, bs), WithoutAll(s.tree.custom, bs),
                          WithoutAll(s.tree.action, bs) + Placed(cfg.style, m, bs, s.lines)) &&
      SeparatorCount(r.tree.action) == SeparatorCount(s.tree.action) + NewLines(cfg.style, m, |bs|) &&
      r.lines == s.lines + NewLines(cfg.style, m, |bs|)
  {
    var m := ModeOf(|bs|, cfg.arrangement);
    var p := Placed(cfg.style, m, bs, s.lines);
    NonEmptyAssigned(s, cfg, bs);
    PlacedFacts(cfg.style, m, bs, s.lines);
    assert forall v <- p :: (v.Line? && s.lines <= v.serial) || v in bs;
    StructureViews(s.tree.background);
    RearrangedClosedForm(s.tree, s.lines, bs, p);
  }

  /** For a non-empty list the call is one detach of the listed buttons followed
      by the style method. */
  lemma NonEmptyAssigned(s: ActionState, cfg: ActionConfig, bs: seq<ClientView>)
    requires |bs| > 0
    ensures var m := ModeOf(|bs|, cfg.arrangement);
      var r := AssignActions(s, cfg, Some(bs));
      r.tree == AddedAll(DetachedAll(s.tree, bs), ActionBox, Placed(cfg.style, m, bs, s.lines)) &&
      r.log == s.log + Emitted(cfg, m, bs, s.lines) &&
      r.lines == s.lines + NewLines(cfg.style, m, |bs|)
  {
    var c := Cleared(s, bs);
    assert c.tree == DetachedAll(s.tree, bs) && c.log == s.log && c.lines == s.lines;
  }

  /** Detaching distinct buttons and adding `p`, made of those buttons and new
      separators, puts `p` at the end of the action container and removes the
      buttons from every other list. */
  lemma RearrangedClosedForm(h: Hierarchy, n: nat, bs: seq<ClientView>, p: seq<View>)
    requires LinesBelow(h, n) && Distinct(p)
    requires forall b <- bs :: b !in h.background
    requires forall v <- p :: (v.Line? && n <= v.serial) || v in bs
    ensures AddedAll(DetachedAll(h, bs), ActionBox, p) ==
      Hierarchy(h.background, WithoutAll(h.content, bs), WithoutAll(h.custom, bs), WithoutAll(h.action, bs) + p)
    ensures SeparatorCount(WithoutAll(h.action, bs) + p) == SeparatorCount(h.action) + SeparatorCount(p)
  {
    var t := DetachedAll(h, bs);
    DetachedAllFacts(h, bs);
    DetachedAllLists(h, bs);
    WithoutAllAbsent(h.background, bs);
    assert forall v <- t.All() :: v.Line? ==> v.serial < n;
    AddedAllFreshAction(t, p);
    assert forall v <- bs :: !v.Line?;
    SeparatorCountWithoutAll(h.action, bs);
    SeparatorCountAppend(WithoutAll(h.action, bs), p);
  }

  /** An empty list leaves an empty action container and appends the container's
      padding and the re-ordered card chain to the log. */
  lemma EmptyListClears(s: ActionState, cfg: ActionConfig)
    requires Sound(s.tree, s.lines)
    ensures AssignActions(s, cfg, Some([])) ==
      ActionState(Hierarchy(s.tree.background, s.tree.content, s.tree.custom, []), s.log + ClearedEntries(), s.lines)
  {
    var c := Cleared(s, []);
    assert c.tree == Hierarchy(s.tree.background, s.tree.content, s.tree.custom, []) by {
      ClearedAction(s.tree);
    }
    EmptyArranged(c, cfg);
  }

  /** The loop of either style does nothing for an empty list. */
  lemma EmptyArranged(s: ActionState, cfg: ActionConfig)
    ensures Arranged(s, cfg, []) == s
  {
    assert ModeOf(0, cfg.arrangement) == Stack;
    assert Placed(cfg.style, Stack, [], s.lines) == [];
    assert Emitted(cfg, Stack, [], s.lines) == [];
    assert s.log + [] == s.log;
  }

  /** One apple-style button: the action container loses it and then gains a
      separator and the button at its end. */
  lemma AppleSingleAssigned(s: ActionState, cfg: ActionConfig, b: ClientView)
    requires Sound(s.tree, s.lines) && cfg.style == Apple
    ensures var r := AssignActions(s, cfg, Some([b]));
      r.tree.action == WithoutAll(s.tree.action, [b]) + [Line(s.lines), b] &&
      r.lines == s.lines + 1 && Sound(r.tree, r.lines)
  {
    assert ModeOf(1, cfg.arrangement) == Single;
    assert Placed(Apple, Single, [b], s.lines) == [Line(s.lines), b];
    NonEmptyListClosedForm(s, cfg, [b]);
    AssignedSound(s, cfg, [b]);
  }

  lemma AssignedSound(s: ActionState, cfg: ActionConfig, bs: seq<ClientView>)
    requires Sound(s.tree, s.lines)
    ensures var r := AssignActions(s, cfg, Some(bs));
      Sound(r.tree, r.lines)
  {
    ClearedSound(s, bs);
    ArrangedSound(Cleared(s, bs), cfg, bs);
  }

  /** Assigning the same single apple-style button twice to a sound card whose
      action container is empty leaves the first call's separator in place: the
      container ends up holding two separators and one button. */
  lemma ReassigningKeepsSeparators(s: ActionState, cfg: ActionConfig, b: ClientView)
    requires Sound(s.tree, s.lines) && cfg.style == Apple && s.tree.action == []
    ensures var r := AssignActions(AssignActions(s, cfg, Some([b])), cfg, Some([b]));
      r.tree.action == [Line(s.lines), Line(s.lines + 1), b] && r.lines == s.lines + 2
  {
    var n := s.lines;
    FirstSingleAssigned(s, cfg, b);
    var r1 := AssignActions(s, cfg, Some([b]));
    AppleSingleAssigned(r1, cfg, b);
    WithoutAllSingle([Line(n), b], b);
    WithoutLast(Line(n), b);
  }

  lemma FirstSingleAssigned(s: ActionState, cfg: ActionConfig, b: ClientView)
    requires Sound(s.tree, s.lines) && cfg.style == Apple && s.tree.action == []
    ensures var r := AssignActions(s, cfg, Some([b]));
      r.tree.action == [Line(s.lines), b] && r.lines == s.lines + 1 && Sound(r.tree, r.lines)
  {
    AppleSingleAssigned(s, cfg, b);
    WithoutAllSingle([], b);
  }

  lemma WithoutLast(a: View, b: View)
    requires a != b
    ensures Without([a, b], b) == [a]
  {
    assert [a, b][1..] == [b];
    assert Without([b], b) == [];
  }

  lemma WithoutAllSingle(s: seq<View>, b: View)
    ensures WithoutAll(s, [b]) == Without(s, b)
  {
    assert [b][..0] == [];
  }
}
