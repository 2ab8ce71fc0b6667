/** Small helper datatypes shared by the model. */
module Wrappers {
  datatype Option<+T> = None | Some(value: T)

  // Proof helpers: sequence algebra the verifier needs spelled out. They
  // model nothing of the card.

  /** One more element of a prefix. */
  lemma PrefixSnoc<T>(s: seq<T>, i: nat)
    requires i < |s|
    ensures s[..i + 1] == s[..i] + [s[i]]
  {
  }

  lemma PrefixWhole<T>(s: seq<T>)
    ensures s[..|s|] == s
  {
  }
}

/**
 * The view hierarchy of the alert card, as the four child lists of the views
 * that hold children: the card (`backgroundView`), the two slot containers and
 * the action container.  Adding a subview first detaches the view from
 * wherever it is, so a view always has at most one superview.
 */
module ViewTree {
  import opened Wrappers

  /** A view of the alert card.  The structural views are created once by the
      card; separator lines are created by the action layout and numbered in
      order of creation; every other view is supplied by the application. */
  datatype View =
    | Host                // the AEBaseAlertView itself
    | Background          // backgroundView, the visible card
    | BackgroundImage
    | TitleLabel
    | MessageText
    | ContentContainer
    | CustomContainer
    | ActionContainer
    | Line(serial: nat)   // a 1-unit separator view
    | Client(id: nat)     // a button or custom view owned by the application

  /** Views the application hands to the card: buttons and slot contents. */
  type ClientView = v: View | v.Client? witness Client(0)

  /** The views whose child lists are part of the model. */
  datatype Container = BackgroundBox | ContentBox | CustomBox | ActionBox

  /** The children of the card once the skeleton is built, in insertion order. */
  const Structure: seq<View> :=
    [BackgroundImage, TitleLabel, MessageText, ContentContainer, CustomContainer, ActionContainer]

  datatype Hierarchy = Hierarchy(background: seq<View>, content: seq<View>, custom: seq<View>, action: seq<View>)
  {
    /** Every placed view, container by container. */
    function All(): seq<View> {
      background + content + custom + action
    }

    function Children(c: Container): seq<View> {
      match c
      case BackgroundBox => background
      case ContentBox => content
      case CustomBox => custom
      case ActionBox => action
    }

    /** The same hierarchy with the children of `c` replaced by `s`. */
    function With(c: Container, s: seq<View>): Hierarchy {
      match c
      case BackgroundBox => Hierarchy(s, content, custom, action)
      case ContentBox => Hierarchy(background, s, custom, action)
      case CustomBox => Hierarchy(background, content, s, action)
      case ActionBox => Hierarchy(background, content, custom, s)
    }
  }

  /** `a` keeps only views of `b` and is no longer than `b`. */
  predicate SubList(a: seq<View>, b: seq<View>) {
    |a| <= |b| && forall x <- a :: x in b
  }

  /** Every child list of `r` is a sub-list of the same list of `h`. */
  predicate Within(r: Hierarchy, h: Hierarchy) {
    SubList(r.background, h.background) && SubList(r.content, h.content) &&
    SubList(r.custom, h.custom) && SubList(r.action, h.action)
  }

  predicate Distinct(vs: seq<View>) {
    forall i, j | 0 <= i < j < |vs| :: vs[i] != vs[j]
  }

  /** Each view occurs at most once in the whole hierarchy: it has at most one superview. */
  predicate Unique(h: Hierarchy) {
    Distinct(h.All())
  }

  /** A list repeats no view exactly when no view occurs in it twice. */
  lemma {:induction false} DistinctCounts(s: seq<View>)
    ensures Distinct(s) <==> forall x :: multiset(s)[x] <= 1
  {
    if s != [] {
      var a, t := s[0], s[1..];
      assert s == [a] + t;
      DistinctCounts(t);
      DistinctCons(a, t);
      assert forall x :: multiset(s)[x] == multiset(t)[x] + (if x == a then 1 else 0);
      assert a in t <==> multiset(t)[a] > 0;
    }
  }

  lemma DistinctCons(a: View, t: seq<View>)
    ensures Distinct([a] + t) <==> a !in t && Distinct(t)
  {
    var s := [a] + t;
    if a !in t && Distinct(t) {
      forall i, j | 0 <= i < j < |s|
        ensures s[i] != s[j]
      {
        assert s[j] == t[j - 1];
        if i > 0 {
          assert s[i] == t[i - 1];
        }
      }
    }
    if Distinct(s) {
      forall i, j | 0 <= i < j < |t|
        ensures t[i] != t[j]
      {
        assert t[i] == s[i + 1] && t[j] == s[j + 1];
      }
      forall k | 0 <= k < |t|
        ensures t[k] != a
      {
        assert t[k] == s[k + 1] && s[0] == a && s[0] != s[k + 1];
      }
    }
  }

  /** Every separator in the hierarchy was created before separator number `n`. */
  predicate LinesBelow(h: Hierarchy, n: nat) {
    forall v <- h.All() :: v.Line? ==> v.serial < n
  }

  /** `bg` is `Structure`, stated element by element. */
  predicate HoldsStructure(bg: seq<View>) {
    |bg| == |Structure| && forall i | 0 <= i < |bg| :: bg[i] == Structure[i]
  }

  /** The invariant the card keeps of its view tree: the card's own subviews in
      their order, each view at most once, and only separators already created. */
  ghost predicate Sound(h: Hierarchy, lines: nat) {
    HoldsStructure(h.background) && Unique(h) && LinesBelow(h, lines)
  }

  /** `s` with every occurrence of `v` removed. */
  function Without(s: seq<View>, v: View): (r: seq<View>)
  {
    if s == [] then []
    else
      assert s == [s[0]] + s[1..];
      (if s[0] == v then [] else [s[0]]) + Without(s[1..], v)
  }

  /** Removing a view keeps exactly the other members, and changes nothing when
      the view is absent. */
  lemma {:induction false} WithoutFacts(s: seq<View>, v: View)
    ensures forall x :: x in Without(s, v) <==> x in s && x != v
    ensures v !in s ==> Without(s, v) == s
  {
    if s != [] {
      WithoutFacts(s[1..], v);
      assert s == [s[0]] + s[1..];
    }
  }

  /** Removing a view drops all its occurrences and keeps every other one. */
  lemma {:induction false} WithoutMultiset(s: seq<View>, v: View)
    ensures multiset(Without(s, v)) == multiset(s)[v := 0]
  {
    if s != [] {
      var t := Without(s[1..], v);
      WithoutMultiset(s[1..], v);
      assert s == [s[0]] + s[1..];
      assert multiset(s) == multiset{s[0]} + multiset(s[1..]);
      if s[0] == v {
        assert Without(s, v) == t;
      } else {
        assert Without(s, v) == [s[0]] + t;
        assert multiset(Without(s, v)) == multiset{s[0]} + multiset(t);
      }
    }
  }

  /** Removing a view never lengthens a list. */
  lemma {:induction false} WithoutShorter(s: seq<View>, v: View)
    ensures |Without(s, v)| <= |s|
  {
    if s != [] {
      WithoutShorter(s[1..], v);
    }
  }

  lemma MultisetOfAll(h: Hierarchy)
    ensures multiset(h.All()) == multiset(h.background) + multiset(h.content) + multiset(h.custom) + multiset(h.action)
  {
  }

  /** `v.removeFromSuperview()`: `v` leaves whichever child list holds it. */
  function Detached(h: Hierarchy, v: View): Hierarchy
  {
    Hierarchy(Without(h.background, v), Without(h.content, v), Without(h.custom, v), Without(h.action, v))
  }

  /** `parent.addSubview(v)`: `v` is detached, then appended to `parent`'s children. */
  function Added(h: Hierarchy, p: Container, v: View): Hierarchy
  {
    var d := Detached(h, v);
    d.With(p, d.Children(p) + [v])
  }

  /** After `removeFromSuperview` the view is nowhere in the tree, and nothing else left it. */
  lemma DetachedFacts(h: Hierarchy, v: View)
    ensures multiset(Detached(h, v).All()) == multiset(h.All())[v := 0]
    ensures forall x :: x in Detached(h, v).All() <==> x in h.All() && x != v
    ensures Within(Detached(h, v), h)
    ensures v !in h.background ==> Detached(h, v).background == h.background
  {
    DetachedLists(h, v);
    DetachedMultiset(h, v);
    WithoutShorter(h.background, v);
    WithoutShorter(h.content, v);
    WithoutShorter(h.custom, v);
    WithoutShorter(h.action, v);
  }

  /** Dropping every occurrence of `v` from a union drops it from both parts. */
  lemma DroppedSum(a: multiset<View>, b: multiset<View>, v: View)
    ensures (a + b)[v := 0] == a[v := 0] + b[v := 0]
  {
  }

  lemma DetachedMultiset(h: Hierarchy, v: View)
    ensures multiset(Detached(h, v).All()) == multiset(h.All())[v := 0]
  {
    var r := Detached(h, v);
    WithoutMultiset(h.background, v);
    WithoutMultiset(h.content, v);
    WithoutMultiset(h.custom, v);
    WithoutMultiset(h.action, v);
    calc {
      multiset(r.All());
      multiset(r.background) + multiset(r.content) + multiset(r.custom) + multiset(r.action);
      multiset(h.background)[v := 0] + multiset(h.content)[v := 0] + multiset(h.custom)[v := 0] + multiset(h.action)[v := 0];
      { var a, b, c, d := multiset(h.background), multiset(h.content), multiset(h.custom), multiset(h.action);
        DroppedSum(a, b, v); DroppedSum(a + b, c, v); DroppedSum(a + b + c, d, v); }
      (multiset(h.background) + multiset(h.content) + multiset(h.custom) + multiset(h.action))[v := 0];
      multiset(h.All())[v := 0];
    }
  }

  /** What removing `v` does to each child list. */
  lemma DetachedLists(h: Hierarchy, v: View)
    ensures forall x :: x in Detached(h, v).background <==> x in h.background && x != v
    ensures forall x :: x in Detached(h, v).content <==> x in h.content && x != v
    ensures forall x :: x in Detached(h, v).custom <==> x in h.custom && x != v
    ensures forall x :: x in Detached(h, v).action <==> x in h.action && x != v
    ensures v !in h.background ==> Detached(h, v).background == h.background
    ensures v !in h.content ==> Detached(h, v).content == h.content
    ensures v !in h.custom ==> Detached(h, v).custom == h.custom
    ensures v !in h.action ==> Detached(h, v).action == h.action
  {
    WithoutFacts(h.background, v);
    WithoutFacts(h.content, v);
    WithoutFacts(h.custom, v);
    WithoutFacts(h.action, v);
  }

  lemma AddedMultiset(d: Hierarchy, p: Container, v: View)
    ensures multiset(d.With(p, d.Children(p) + [v]).All()) == multiset(d.All()) + multiset{v}
  {
    match p
    case BackgroundBox =>
      AddedMultisetAt(d, Hierarchy(d.background + [v], d.content, d.custom, d.action), v);
    case ContentBox =>
      AddedMultisetAt(d, Hierarchy(d.background, d.content + [v], d.custom, d.action), v);
    case CustomBox =>
      AddedMultisetAt(d, Hierarchy(d.background, d.content, d.custom + [v], d.action), v);
    case ActionBox =>
      AddedMultisetAt(d, Hierarchy(d.background, d.content, d.custom, d.action + [v]), v);
  }

  /** `r` is `d` with `v` appended to one of its child lists. */
  lemma AddedMultisetAt(d: Hierarchy, r: Hierarchy, v: View)
    requires r == Hierarchy(d.background + [v], d.content, d.custom, d.action) ||
             r == Hierarchy(d.background, d.content + [v], d.custom, d.action) ||
             r == Hierarchy(d.background, d.content, d.custom + [v], d.action) ||
             r == Hierarchy(d.background, d.content, d.custom, d.action + [v])
    ensures multiset(r.All()) == multiset(d.All()) + multiset{v}
  {
    MultisetOfAll(r);
    MultisetOfAll(d);
    assert multiset(d.background + [v]) == multiset(d.background) + multiset{v};
    assert multiset(d.content + [v]) == multiset(d.content) + multiset{v};
    assert multiset(d.custom + [v]) == multiset(d.custom) + multiset{v};
    assert multiset(d.action + [v]) == multiset(d.action) + multiset{v};
  }

  /** After `addSubview` the view occurs exactly once, and every other view as often as before. */
  lemma AddedFacts(h: Hierarchy, p: Container, v: View)
    ensures multiset(Added(h, p, v).All()) == multiset(h.All())[v := 1]
    ensures forall x :: x in Added(h, p, v).All() <==> x in h.All() || x == v
    ensures Within(Added(h, p, v).With(p, []), h.With(p, []))
    ensures p != BackgroundBox && v !in h.background ==> Added(h, p, v).background == h.background
  {
    AddedCounts(h, p, v);
    AddedMembers(h, p, v);
    AddedWithin(h, p, v);
  }

  lemma AddedCounts(h: Hierarchy, p: Container, v: View)
    ensures multiset(Added(h, p, v).All()) == multiset(h.All())[v := 1]
  {
    var d := Detached(h, v);
    DetachedFacts(h, v);
    AddedMultiset(d, p, v);
    assert multiset(d.All()) + multiset{v} == multiset(h.All())[v := 1];
  }

  lemma AddedMembers(h: Hierarchy, p: Container, v: View)
    ensures forall x :: x in Added(h, p, v).All() <==> x in h.All() || x == v
  {
    AddedCounts(h, p, v);
    forall x
      ensures x in Added(h, p, v).All() <==> x in h.All() || x == v
    {
      assert x in Added(h, p, v).All() <==> multiset(Added(h, p, v).All())[x] > 0;
      assert x in h.All() <==> multiset(h.All())[x] > 0;
    }
  }

  lemma AddedWithin(h: Hierarchy, p: Container, v: View)
    ensures Within(Added(h, p, v).With(p, []), h.With(p, []))
    ensures p != BackgroundBox && v !in h.background ==> Added(h, p, v).background == h.background
  {
    var d := Detached(h, v);
    DetachedFacts(h, v);
    assert Added(h, p, v).With(p, []) == d.With(p, []);
  }

  /** Removing a view from a tree without duplicates leaves none. */
  lemma DetachedUnique(h: Hierarchy, v: View)
    requires Unique(h)
    ensures Unique(Detached(h, v))
  {
    DetachedFacts(h, v);
    DistinctCounts(h.All());
    DistinctCounts(Detached(h, v).All());
    forall x
      ensures multiset(Detached(h, v).All())[x] <= 1
    {
      assert multiset(h.All())[x] <= 1;
    }
  }

  /** Adding a view to a tree without duplicates leaves none. */
  lemma AddedUnique(h: Hierarchy, p: Container, v: View)
    requires Unique(h)
    ensures Unique(Added(h, p, v))
  {
    AddedCounts(h, p, v);
    DistinctCounts(h.All());
    DistinctCounts(Added(h, p, v).All());
    forall x
      ensures multiset(Added(h, p, v).All())[x] <= 1
    {
      assert multiset(h.All())[x] <= 1;
    }
  }

  /** Detaching the views of `vs`, first to last. */
  function DetachedAll(h: Hierarchy, vs: seq<View>): Hierarchy
    decreases |vs|
  {
    if vs == [] then h
    else Detached(DetachedAll(h, vs[..|vs| - 1]), vs[|vs| - 1])
  }

  lemma DetachedAllFacts(h: Hierarchy, vs: seq<View>)
    ensures forall x :: x in DetachedAll(h, vs).All() <==> x in h.All() && x !in vs
    ensures Unique(h) ==> Unique(DetachedAll(h, vs))
    ensures Within(DetachedAll(h, vs), h)
    ensures (forall v <- vs :: v !in h.background) ==> DetachedAll(h, vs).background == h.background
  {
    DetachedAllMembers(h, vs);
    if Unique(h) {
      DetachedAllUnique(h, vs);
    }
    DetachedAllWithin(h, vs);
  }

  lemma {:induction false} DetachedAllMembers(h: Hierarchy, vs: seq<View>)
    ensures forall x :: x in DetachedAll(h, vs).All() <==> x in h.All() && x !in vs
    decreases |vs|
  {
    if vs != [] {
      var init, last := vs[..|vs| - 1], vs[|vs| - 1];
      assert vs == init + [last];
      DetachedAllMembers(h, init);
      DetachedFacts(DetachedAll(h, init), last);
    }
  }

  lemma {:induction false} DetachedAllUnique(h: Hierarchy, vs: seq<View>)
    requires Unique(h)
    ensures Unique(DetachedAll(h, vs))
    decreases |vs|
  {
    if vs != [] {
      var init, last := vs[..|vs| - 1], vs[|vs| - 1];
      DetachedAllUnique(h, init);
      DetachedUnique(DetachedAll(h, init), last);
    }
  }

  lemma {:induction false} DetachedAllWithin(h: Hierarchy, vs: seq<View>)
    ensures Within(DetachedAll(h, vs), h)
    ensures (forall v <- vs :: v !in h.background) ==> DetachedAll(h, vs).background == h.background
    decreases |vs|
  {
    if vs != [] {
      var init, last := vs[..|vs| - 1], vs[|vs| - 1];
      assert vs == init + [last];
      DetachedAllWithin(h, init);
      DetachedFacts(DetachedAll(h, init), last);
    }
  }

  /** Adding the views of `vs` to `p`, first to last. */
  function AddedAll(h: Hierarchy, p: Container, vs: seq<View>): Hierarchy
    decreases |vs|
  {
    if vs == [] then h
    else Added(AddedAll(h, p, vs[..|vs| - 1]), p, vs[|vs| - 1])
  }

  lemma AddedAllFacts(h: Hierarchy, p: Container, vs: seq<View>)
    ensures forall x :: x in AddedAll(h, p, vs).All() <==> x in h.All() || x in vs
    ensures Unique(h) ==> Unique(AddedAll(h, p, vs))
    ensures Within(AddedAll(h, p, vs).With(p, []), h.With(p, []))
    ensures p != BackgroundBox && (forall v <- vs :: v !in h.background) ==> AddedAll(h, p, vs).background == h.background
  {
    AddedAllMembers(h, p, vs);
    if Unique(h) {
      AddedAllUnique(h, p, vs);
    }
    AddedAllWithin(h, p, vs);
    if p != BackgroundBox && (forall v <- vs :: v !in h.background) {
      AddedAllBackground(h, p, vs);
    }
  }

  lemma {:induction false} AddedAllMembers(h: Hierarchy, p: Container, vs: seq<View>)
    ensures forall x :: x in AddedAll(h, p, vs).All() <==> x in h.All() || x in vs
    decreases |vs|
  {
    if vs != [] {
      var init, last := vs[..|vs| - 1], vs[|vs| - 1];
      assert vs == init + [last];
      AddedAllMembers(h, p, init);
      AddedFacts(AddedAll(h, p, init), p, last);
    }
  }

  lemma {:induction false} AddedAllUnique(h: Hierarchy, p: Container, vs: seq<View>)
    requires Unique(h)
    ensures Unique(AddedAll(h, p, vs))
    decreases |vs|
  {
    if vs != [] {
      var init, last := vs[..|vs| - 1], vs[|vs| - 1];
      AddedAllUnique(h, p, init);
      AddedUnique(AddedAll(h, p, init), p, last);
    }
  }

  lemma {:induction false} AddedAllWithin(h: Hierarchy, p: Container, vs: seq<View>)
    ensures Within(AddedAll(h, p, vs).With(p, []), h.With(p, []))
    decreases |vs|
  {
    if vs != [] {
      var init, last := vs[..|vs| - 1], vs[|vs| - 1];
      AddedAllWithin(h, p, init);
      AddedFacts(AddedAll(h, p, init), p, last);
    }
  }

  lemma {:induction false} AddedAllBackground(h: Hierarchy, p: Container, vs: seq<View>)
    requires p != BackgroundBox && forall v <- vs :: v !in h.background
    ensures AddedAll(h, p, vs).background == h.background
    decreases |vs|
  {
    if vs != [] {
      var init, last := vs[..|vs| - 1], vs[|vs| - 1];
      assert vs == init + [last];
      AddedAllBackground(h, p, init);
      AddedFacts(AddedAll(h, p, init), p, last);
    }
  }

  lemma AddedAllSnoc(h: Hierarchy, p: Container, vs: seq<View>, v: View)
    ensures AddedAll(h, p, vs + [v]) == Added(AddedAll(h, p, vs), p, v)
  {
    assert (vs + [v])[..|vs|] == vs;
  }

  lemma DetachedAllSnoc(h: Hierarchy, vs: seq<View>, v: View)
    ensures DetachedAll(h, vs + [v]) == Detached(DetachedAll(h, vs), v)
  {
    assert (vs + [v])[..|vs|] == vs;
  }

  lemma WithWith(h: Hierarchy, p: Container, x: seq<View>, y: seq<View>)
    ensures h.With(p, x).Children(p) == x
    ensures h.With(p, x).With(p, y) == h.With(p, y)
  {
  }

  lemma DetachedAbsent(h: Hierarchy, v: View)
    requires v !in h.All()
    ensures Detached(h, v) == h
  {
    assert v !in h.background && v !in h.content && v !in h.custom && v !in h.action;
    DetachedLists(h, v);
  }

  /** Adding a view that is nowhere in the tree to the action container appends it there. */
  lemma AddedFreshAction(h: Hierarchy, v: View)
    requires v !in h.All()
    ensures Added(h, ActionBox, v) == Hierarchy(h.background, h.content, h.custom, h.action + [v])
  {
    DetachedAbsent(h, v);
  }

  lemma AddedAllAbsent(h: Hierarchy, p: Container, vs: seq<View>, v: View)
    requires v !in h.All() && v !in vs
    ensures v !in AddedAll(h, p, vs).All()
  {
    AddedAllFacts(h, p, vs);
  }

  lemma AddedFreshActionStep(h: Hierarchy, init: seq<View>, last: View)
    requires AddedAll(h, ActionBox, init) == Hierarchy(h.background, h.content, h.custom, h.action + init)
    requires last !in AddedAll(h, ActionBox, init).All()
    ensures AddedAll(h, ActionBox, init + [last]) == Hierarchy(h.background, h.content, h.custom, h.action + (init + [last]))
  {
    var g := AddedAll(h, ActionBox, init);
    AddedAllSnoc(h, ActionBox, init, last);
    AddedFreshAction(g, last);
    assert Added(g, ActionBox, last) == Hierarchy(g.background, g.content, g.custom, g.action + [last]);
    assert g.background == h.background && g.content == h.content && g.custom == h.custom;
    AppendAssoc(h.action, init, [last]);
  }

  /** Adding views that are nowhere in the tree, none of them twice, to the action
      container appends them there and leaves every other child list as it was. */
  lemma {:induction false} AddedAllFreshAction(h: Hierarchy, vs: seq<View>)
    requires forall v <- vs :: v !in h.All()
    requires Distinct(vs)
    ensures AddedAll(h, ActionBox, vs) == Hierarchy(h.background, h.content, h.custom, h.action + vs)
    decreases |vs|
  {
    if vs == [] {
      assert h.action + vs == h.action;
    } else {
      var init, last := vs[..|vs| - 1], vs[|vs| - 1];
      assert vs == init + [last];
      AddedAllFreshAction(h, init);
      AddedAllAbsent(h, ActionBox, init, last);
      AddedFreshActionStep(h, init, last);
    }
  }

  /** In a tree without duplicates, a child of the action container occurs
      nowhere else, and not again later in its own list. */
  lemma UniqueActionChild(h: Hierarchy, k: nat)
    requires Unique(h)
    requires k < |h.action|
    ensures h.action[k] !in h.background && h.action[k] !in h.content && h.action[k] !in h.custom
    ensures h.action[k] !in h.action[k + 1..]
  {
    var x := h.action[k];
    assert h.action == h.action[..k] + [x] + h.action[k + 1..];
    assert multiset(h.action)[x] == multiset(h.action[..k])[x] + 1 + multiset(h.action[k + 1..])[x];
    MultisetOfAll(h);
    DistinctCounts(h.All());
    assert multiset(h.All())[x] <= 1;
  }

  /** Detaching the first `i` children of the action container, one by one,
      leaves the rest of that list and touches no other list. */
  lemma {:induction false} DetachedActionPrefix(h: Hierarchy, i: nat)
    requires Unique(h)
    requires i <= |h.action|
    ensures DetachedAll(h, h.action[..i]) == Hierarchy(h.background, h.content, h.custom, h.action[i..])
  {
    if i > 0 {
      DetachedActionPrefix(h, i - 1);
      DetachedActionStep(h, i);
    }
  }

  lemma DetachedActionStep(h: Hierarchy, i: nat)
    requires Unique(h)
    requires 0 < i <= |h.action|
    requires DetachedAll(h, h.action[..i - 1]) == Hierarchy(h.background, h.content, h.custom, h.action[i - 1..])
    ensures DetachedAll(h, h.action[..i]) == Hierarchy(h.background, h.content, h.custom, h.action[i..])
  {
    var x := h.action[i - 1];
    var g := Hierarchy(h.background, h.content, h.custom, h.action[i - 1..]);
    UniqueActionChild(h, i - 1);
    DetachedHead(h.action[i - 1..], h.action[i..]);
    DetachedLists(g, x);
    assert Detached(g, x) == Hierarchy(h.background, h.content, h.custom, h.action[i..]);
    TakeSnoc(h.action, i);
    DetachedAllSnoc(h, h.action[..i - 1], x);
  }

  lemma DetachedHead(s: seq<View>, rest: seq<View>)
    requires |s| > 0 && s[1..] == rest && s[0] !in rest
    ensures Without(s, s[0]) == rest
  {
    WithoutFacts(rest, s[0]);
  }

  /** Detaching every child of the action container empties it and nothing else. */
  lemma ClearedAction(h: Hierarchy)
    requires Unique(h)
    ensures DetachedAll(h, h.action) == Hierarchy(h.background, h.content, h.custom, [])
  {
    DetachedActionPrefix(h, |h.action|);
    assert h.action[..|h.action|] == h.action;
  }

  /** `s` with every view of `vs` removed. */
  function WithoutAll(s: seq<View>, vs: seq<View>): seq<View>
    decreases |vs|
  {
    if vs == [] then s else Without(WithoutAll(s, vs[..|vs| - 1]), vs[|vs| - 1])
  }

  lemma {:induction false} WithoutAllMembers(s: seq<View>, vs: seq<View>)
    ensures forall x :: x in WithoutAll(s, vs) <==> x in s && x !in vs
    decreases |vs|
  {
    if vs != [] {
      var init, last := vs[..|vs| - 1], vs[|vs| - 1];
      assert vs == init + [last];
      WithoutAllMembers(s, init);
      WithoutFacts(WithoutAll(s, init), last);
    }
  }

  /** Detaching the views of `vs` removes them from each child list separately. */
  lemma {:induction false} DetachedAllLists(h: Hierarchy, vs: seq<View>)
    ensures DetachedAll(h, vs) == Hierarchy(WithoutAll(h.background, vs), WithoutAll(h.content, vs), WithoutAll(h.custom, vs), WithoutAll(h.action, vs))
    decreases |vs|
  {
    if vs != [] {
      DetachedAllLists(h, vs[..|vs| - 1]);
    }
  }

  /** A view already in the action container stays there when views are added to it. */
  lemma AddedKeepsAction(h: Hierarchy, v: View, x: View)
    requires x in h.action
    ensures x in Added(h, ActionBox, v).action
  {
    if x != v {
      WithoutFacts(h.action, v);
      assert x in Without(h.action, v);
    }
  }

  lemma {:induction false} AddedAllKeepsAction(h: Hierarchy, vs: seq<View>, x: View)
    requires x in h.action
    ensures x in AddedAll(h, ActionBox, vs).action
    decreases |vs|
  {
    if vs != [] {
      AddedAllKeepsAction(h, vs[..|vs| - 1], x);
      AddedKeepsAction(AddedAll(h, ActionBox, vs[..|vs| - 1]), vs[|vs| - 1], x);
    }
  }

  lemma {:induction false} WithoutAllAbsent(s: seq<View>, vs: seq<View>)
    requires forall v <- vs :: v !in s
    ensures WithoutAll(s, vs) == s
    decreases |vs|
  {
    if vs != [] {
      WithoutAllAbsent(s, vs[..|vs| - 1]);
      assert vs[|vs| - 1] in vs;
      WithoutFacts(s, vs[|vs| - 1]);
    }
  }

  /** Adding views to the action container takes them out of the slot containers
      and leaves every other view there. */
  lemma AddedKeepsSlots(h: Hierarchy, v: View)
    ensures Added(h, ActionBox, v).content == Without(h.content, v)
    ensures Added(h, ActionBox, v).custom == Without(h.custom, v)
  {
  }

  lemma {:induction false} AddedAllKeepsSlots(h: Hierarchy, vs: seq<View>, x: View)
    requires x !in vs
    ensures x in h.content ==> x in AddedAll(h, ActionBox, vs).content
    ensures x in h.custom ==> x in AddedAll(h, ActionBox, vs).custom
    decreases |vs|
  {
    if vs != [] {
      var init := vs[..|vs| - 1];
      assert vs == init + [vs[|vs| - 1]];
      AddedAllKeepsSlots(h, init, x);
      AddedKeepsSlots(AddedAll(h, ActionBox, init), vs[|vs| - 1]);
      DetachedLists(AddedAll(h, ActionBox, init), vs[|vs| - 1]);
    }
  }

  lemma HoldsStructureIsStructure(bg: seq<View>)
    ensures HoldsStructure(bg) <==> bg == Structure
  {
  }

  /** The card's own subviews are neither separators nor application views. */
  lemma StructureViews(bg: seq<View>)
    requires HoldsStructure(bg)
    ensures forall v <- bg :: !v.Line? && !v.Client?
  {
    HoldsStructureIsStructure(bg);
  }

  lemma StructureOnce(x: View)
    ensures multiset(Structure)[x] <= 1
  {
    var m := multiset{BackgroundImage, TitleLabel, MessageText, ContentContainer, CustomContainer, ActionContainer};
    assert multiset(Structure) == m;
    if x.Client? || x.Line? || x == Host || x == Background {
      assert x !in m;
    }
  }

  /** The card's tree right after construction is sound. */
  lemma SkeletonSound(n: nat)
    ensures Sound(Hierarchy(Structure, [], [], []), n)
  {
    var h := Hierarchy(Structure, [], [], []);
    assert h.All() == Structure;
    StructureUnique();
    DistinctCounts(Structure);
    StructureHasNoLines();
  }

  lemma StructureUnique()
    ensures forall x :: multiset(Structure)[x] <= 1
  {
    forall x
      ensures multiset(Structure)[x] <= 1
    {
      StructureOnce(x);
    }
  }

  lemma StructureHasNoLines()
    ensures forall v <- Structure :: !v.Line?
  {
  }

  /** A slot container holds nothing, or exactly the view its field names. */
  predicate SlotHolds(children: seq<View>, field: Option<ClientView>) {
    children == [] || (field.Some? && children == [field.value])
  }

  lemma SlotHoldsSubList(a: seq<View>, b: seq<View>, field: Option<ClientView>)
    requires SubList(a, b) && SlotHolds(b, field)
    ensures SlotHolds(a, field)
  {
    if a != [] {
      assert a[0] in b;
    }
  }

  /** Number of separator views in `vs`. */
  function SeparatorCount(vs: seq<View>): (n: nat)
    ensures n <= |vs|
  {
    if vs == [] then 0 else (if vs[0].Line? then 1 else 0) + SeparatorCount(vs[1..])
  }

  /** Removing a view that is not a separator keeps the number of separators. */
  lemma {:induction false} SeparatorCountWithout(s: seq<View>, v: View)
    requires !v.Line?
    ensures SeparatorCount(Without(s, v)) == SeparatorCount(s)
  {
    if s != [] {
      SeparatorCountWithout(s[1..], v);
      SeparatorCountAppend(if s[0] == v then [] else [s[0]], Without(s[1..], v));
    }
  }

  lemma {:induction false} SeparatorCountWithoutAll(s: seq<View>, vs: seq<View>)
    requires forall v <- vs :: !v.Line?
    ensures SeparatorCount(WithoutAll(s, vs)) == SeparatorCount(s)
    decreases |vs|
  {
    if vs != [] {
      SeparatorCountWithoutAll(s, vs[..|vs| - 1]);
      SeparatorCountWithout(WithoutAll(s, vs[..|vs| - 1]), vs[|vs| - 1]);
    }
  }

  lemma {:induction false} SeparatorCountAppend(a: seq<View>, b: seq<View>)
    ensures SeparatorCount(a + b) == SeparatorCount(a) + SeparatorCount(b)
  {
    if a == [] {
      assert a + b == b;
    } else {
      assert (a + b)[1..] == a[1..] + b;
      SeparatorCountAppend(a[1..], b);
    }
  }

  // Proof helpers: sequence algebra the verifier needs spelled out. They
  // model nothing of the card.

  lemma AppendAssoc(a: seq<View>, b: seq<View>, c: seq<View>)
    ensures a + b + c == a + (b + c)
  {
  }

  /** One more element of a prefix. */
  lemma TakeSnoc(s: seq<View>, i: nat)
    requires 0 < i <= |s|
    ensures s[..i] == s[..i - 1] + [s[i - 1]]
  {
  }
}
