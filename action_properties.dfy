/**
 * What the action layout guarantees: which branch a list takes, how many
 * separators and equal-width constraints each branch creates, which spacing
 * each style uses, which button reaches the bottom edge, and that assigning a
 * list keeps the card's view tree sound.
 */
module ActionProperties {
  import opened Wrappers
  import opened ViewTree
  import opened Constraints
  import opened CardSkeleton
  import opened ActionLayout

  /** Every gap of an apple-style chain is flush. */
  predicate FlushChain(c: Constraint) {
    c.Chain? ==>
      (c.lead.Some? ==> c.lead.value == Flush) &&
      (c.trail.Some? ==> c.trail.value == Flush) &&
      forall g <- c.gaps :: g == Flush
  }

  /** Custom-style spacing: `p` on both sides of every horizontal chain, `m` for
      every vertical gap. */
  predicate CustomSpaced(c: Constraint, p: int, m: int) {
    c.Chain? ==>
      (c.axis == H ==> c.lead == Some(Space(p, Required)) && c.trail == Some(Space(p, Required))) &&
      (c.axis == V ==>
        (c.lead.Some? ==> c.lead.value == Space(m, Required)) &&
        (c.trail.Some? ==> c.trail.value == Space(m, Required)) &&
        forall g <- c.gaps :: g == Space(m, Required))
  }

  /** Every fixed size a chain gives a button is the action height. */
  predicate ButtonsSizedBy(c: Constraint, h: int) {
    c.Chain? ==> forall it <- c.items :: it.view.Client? && it.size.Some? ==> it.size.value == h
  }

  predicate AppleShaped(e: Entry, h: int) {
    e.owner == ActionContainer && WellFormed(e.constraint) && FlushChain(e.constraint) && ButtonsSizedBy(e.constraint, h)
  }

  predicate CustomShaped(e: Entry, h: int, p: int, m: int) {
    e.owner == ActionContainer && WellFormed(e.constraint) && CustomSpaced(e.constraint, p, m) && ButtonsSizedBy(e.constraint, h)
  }

  /** Some vertical chain of `es` gives `v` the fixed height `h`. */
  predicate HasHeight(es: seq<Entry>, v: View, h: int) {
    exists e <- es :: e.constraint.Chain? && e.constraint.axis == V && Item(v, Some(h)) in e.constraint.items
  }

  // ------------------------------------------------------------ branch selection

  /** Exactly two buttons side by side take the pair branch, exactly one button the
      single branch, and everything else, an empty list and two stacked buttons
      included, the loop. */
  lemma ModeSelection(n: nat, a: Arrangement)
    ensures ModeOf(n, a) == Pair <==> n == 2 && a == Horizontal
    ensures ModeOf(n, a) == Single <==> n == 1
    ensures ModeOf(n, a) == Stack <==> n == 0 || n > 2 || (n == 2 && a == Vertical)
  {
  }

  // ------------------------------------------------------------------- the loops

  lemma AppleStepShaped(bs: seq<ClientView>, h: int, n0: nat, i: nat)
    requires i < |bs|
    ensures forall e <- AppleStackStep(bs, h, n0, i) :: AppleShaped(e, h)
  {
  }

  lemma AppleStepMembers(bs: seq<ClientView>, h: int, n0: nat, i: nat)
    requires i < |bs|
    ensures InAction(FixedHeight(bs[i], h)) in AppleStackStep(bs, h, n0, i)
    ensures InAction(LineAbove(bs, n0, i)) in AppleStackStep(bs, h, n0, i)
  {
    assert AppleStackStep(bs, h, n0, i)[1] == InAction(FixedHeight(bs[i], h));
    assert AppleStackStep(bs, h, n0, i)[3] == InAction(LineAbove(bs, n0, i));
  }

  lemma AppleStepBottomIsLast(bs: seq<ClientView>, h: int, n0: nat, i: nat)
    requires i < |bs|
    ensures forall e <- AppleStackStep(bs, h, n0, i) :: Matches(e, BottomPinPattern) ==> e.constraint.items == [Item(bs[|bs| - 1], None)]
  {
  }

  lemma AppleStepBottom(bs: seq<ClientView>, h: int, n0: nat, i: nat)
    requires i < |bs|
    ensures Count(AppleStackStep(bs, h, n0, i), BottomPinPattern) == (if i == |bs| - 1 then 1 else 0)
  {
    var b := bs[i];
    var core := [ InAction(HPad(b, Flush)), InAction(FixedHeight(b, h)), InAction(HPad(Line(n0 + i), Flush)), InAction(LineAbove(bs, n0, i)) ];
    var tail: seq<Entry> := if i == |bs| - 1 then [InAction(Chain(V, None, [Item(b, None)], [], Some(Flush), false))] else [];
    assert AppleStackStep(bs, h, n0, i) == core + tail;
    assert forall e <- core :: !Matches(e, BottomPinPattern);
    CountZero(core, BottomPinPattern);
    CountAppend(core, tail, BottomPinPattern);
  }

  /** The apple loop: every constraint goes to the action container, is flush and
      sizes buttons by the action height. */
  lemma {:induction false} AppleStackShaped(bs: seq<ClientView>, h: int, n0: nat, k: nat)
    requires k <= |bs|
    ensures forall e <- AppleStackEntries(bs, h, n0, k) :: AppleShaped(e, h)
  {
    if k > 0 {
      AppleStackShaped(bs, h, n0, k - 1);
      AppleStepShaped(bs, h, n0, k - 1);
    }
  }

  /** The apple loop gives every button the action height and the separator above it. */
  lemma {:induction false} AppleStackLines(bs: seq<ClientView>, h: int, n0: nat, k: nat)
    requires k <= |bs|
    ensures forall i :: 0 <= i < k ==> InAction(FixedHeight(bs[i], h)) in AppleStackEntries(bs, h, n0, k)
    ensures forall i :: 0 <= i < k ==> InAction(LineAbove(bs, n0, i)) in AppleStackEntries(bs, h, n0, k)
  {
    if k > 0 {
      var prev, step := AppleStackEntries(bs, h, n0, k - 1), AppleStackStep(bs, h, n0, k - 1);
      assert AppleStackEntries(bs, h, n0, k) == prev + step;
      AppleStackLines(bs, h, n0, k - 1);
      AppleStepMembers(bs, h, n0, k - 1);
      forall i | 0 <= i < k
        ensures InAction(FixedHeight(bs[i], h)) in prev + step
        ensures InAction(LineAbove(bs, n0, i)) in prev + step
      {
        if i < k - 1 {
          assert InAction(FixedHeight(bs[i], h)) in prev;
          assert InAction(LineAbove(bs, n0, i)) in prev;
        }
      }
    }
  }

  /** In the apple loop exactly one chain reaches the bottom edge. */
  lemma {:induction false} AppleStackBottom(bs: seq<ClientView>, h: int, n0: nat, k: nat)
    requires k <= |bs|
    ensures Count(AppleStackEntries(bs, h, n0, k), BottomPinPattern) == (if k == |bs| && k > 0 then 1 else 0)
  {
    if k > 0 {
      var prev, step := AppleStackEntries(bs, h, n0, k - 1), AppleStackStep(bs, h, n0, k - 1);
      AppleStackBottom(bs, h, n0, k - 1);
      AppleStepBottom(bs, h, n0, k - 1);
      CountAppend(prev, step, BottomPinPattern);
      assert Count(prev, BottomPinPattern) == 0;
      assert Count(step, BottomPinPattern) == (if k == |bs| then 1 else 0);
    }
  }

  /** The chain of the apple loop that reaches the bottom edge is that of the last button. */
  lemma {:induction false} AppleStackBottomIsLast(bs: seq<ClientView>, h: int, n0: nat, k: nat)
    requires k <= |bs|
    ensures forall e <- AppleStackEntries(bs, h, n0, k) :: Matches(e, BottomPinPattern) ==> e.constraint.items == [Item(bs[|bs| - 1], None)]
  {
    if k > 0 {
      AppleStackBottomIsLast(bs, h, n0, k - 1);
      AppleStepBottomIsLast(bs, h, n0, k - 1);
    }
  }

  lemma CustomStepShaped(bs: seq<ClientView>, h: int, p: int, m: int, i: nat)
    requires i < |bs|
    ensures forall e <- CustomStackStep(bs, h, p, m, i) :: CustomShaped(e, h, p, m)
    ensures InAction(FixedHeight(bs[i], h)) in CustomStackStep(bs, h, p, m, i)
  {
  }

  lemma CustomStepMargins(bs: seq<ClientView>, h: int, p: int, m: int, i: nat)
    requires i < |bs|
    ensures Count(CustomStackStep(bs, h, p, m, i), LeadingMarginPattern(m)) == (if i == 0 then 1 else 0)
    ensures Count(CustomStackStep(bs, h, p, m, i), BetweenMarginPattern(m)) == (if i == 0 then 0 else 1)
    ensures Count(CustomStackStep(bs, h, p, m, i), TrailingMarginPattern(m)) == (if i == |bs| - 1 then 1 else 0)
  {
    var b := bs[i];
    var core := [ InAction(HPad(b, Space(p, Required))), InAction(FixedHeight(b, h)), InAction(MarginAbove(bs, m, i)) ];
    var tail: seq<Entry> := if i == |bs| - 1 then [InAction(Chain(V, None, [Item(b, None)], [], Some(Space(m, Required)), false))] else [];
    assert CustomStackStep(bs, h, p, m, i) == core + tail;
    CountAppend(core, tail, LeadingMarginPattern(m));
    CountAppend(core, tail, BetweenMarginPattern(m));
    CountAppend(core, tail, TrailingMarginPattern(m));
    CoreMargins(bs, h, p, m, i, core);
    TailMargins(m, tail, b);
  }

  lemma CoreMargins(bs: seq<ClientView>, h: int, p: int, m: int, i: nat, core: seq<Entry>)
    requires i < |bs|
    requires core == [ InAction(HPad(bs[i], Space(p, Required))), InAction(FixedHeight(bs[i], h)), InAction(MarginAbove(bs, m, i)) ]
    ensures Count(core, LeadingMarginPattern(m)) == (if i == 0 then 1 else 0)
    ensures Count(core, BetweenMarginPattern(m)) == (if i == 0 then 0 else 1)
    ensures Count(core, TrailingMarginPattern(m)) == 0
  {
    assert forall e <- core :: !Matches(e, TrailingMarginPattern(m));
    CountZero(core, TrailingMarginPattern(m));
    if i == 0 {
      CountOne(core, 2, LeadingMarginPattern(m));
      assert forall e <- core :: !Matches(e, BetweenMarginPattern(m));
      CountZero(core, BetweenMarginPattern(m));
    } else {
      CountOne(core, 2, BetweenMarginPattern(m));
      assert forall e <- core :: !Matches(e, LeadingMarginPattern(m));
      CountZero(core, LeadingMarginPattern(m));
    }
  }

  lemma TailMargins(m: int, tail: seq<Entry>, b: View)
    requires tail == [] || tail == [InAction(Chain(V, None, [Item(b, None)], [], Some(Space(m, Required)), false))]
    ensures Count(tail, LeadingMarginPattern(m)) == 0
    ensures Count(tail, BetweenMarginPattern(m)) == 0
    ensures Count(tail, TrailingMarginPattern(m)) == (if tail == [] then 0 else 1)
  {
  }

  /** The custom loop's constraints all go to the action container with the
      custom spacing, and a button only ever gets the action height. */
  lemma {:induction false} CustomStackShaped(bs: seq<ClientView>, h: int, p: int, m: int, k: nat)
    requires k <= |bs|
    ensures forall e <- CustomStackEntries(bs, h, p, m, k) :: CustomShaped(e, h, p, m)
  {
    if k > 0 {
      CustomStackShaped(bs, h, p, m, k - 1);
      CustomStepShaped(bs, h, p, m, k - 1);
    }
  }

  /** Each of the first `k` buttons of the custom loop gets the action height. */
  lemma {:induction false} CustomStackHeights(bs: seq<ClientView>, h: int, p: int, m: int, k: nat)
    requires k <= |bs|
    ensures forall i :: 0 <= i < k ==> InAction(FixedHeight(bs[i], h)) in CustomStackEntries(bs, h, p, m, k)
  {
    if k > 0 {
      CustomStackHeights(bs, h, p, m, k - 1);
      CustomStepShaped(bs, h, p, m, k - 1);
    }
  }

  /** The custom loop over `n` buttons: one margin from the top edge, `n - 1`
      margins between a button and the previous one, and one margin to the bottom
      edge. */
  lemma {:induction false} CustomStackMargins(bs: seq<ClientView>, h: int, p: int, m: int, k: nat)
    requires k <= |bs|
    ensures Count(CustomStackEntries(bs, h, p, m, k), LeadingMarginPattern(m)) == (if k > 0 then 1 else 0)
    ensures Count(CustomStackEntries(bs, h, p, m, k), BetweenMarginPattern(m)) == (if k > 0 then k - 1 else 0)
    ensures Count(CustomStackEntries(bs, h, p, m, k), TrailingMarginPattern(m)) == (if k == |bs| && k > 0 then 1 else 0)
  {
    if k > 0 {
      var prev, step := CustomStackEntries(bs, h, p, m, k - 1), CustomStackStep(bs, h, p, m, k - 1);
      CustomStackMargins(bs, h, p, m, k - 1);
      CustomStepMargins(bs, h, p, m, k - 1);
      CountAppend(prev, step, LeadingMarginPattern(m));
      CountAppend(prev, step, BetweenMarginPattern(m));
      CountAppend(prev, step, TrailingMarginPattern(m));
    }
  }

  // ------------------------------------------------------ views a branch places

  lemma DistinctSnoc(a: seq<View>, x: View)
    requires Distinct(a) && x !in a
    ensures Distinct(a + [x])
  {
  }

  /** No button is a separator. */
  lemma {:induction false} NoSeparators(bs: seq<ClientView>)
    ensures SeparatorCount(bs) == 0
  {
    if bs != [] {
      NoSeparators(bs[1..]);
    }
  }

  lemma AppleStackPlacedSnoc(bs: seq<ClientView>, n0: nat, k: nat)
    requires 0 < k <= |bs|
    ensures AppleStackPlaced(bs, n0, k) == AppleStackPlaced(bs, n0, k - 1) + [bs[k - 1]] + [Line(n0 + k - 1)]
  {
  }

  lemma {:induction false} AppleStackPlacedLines(bs: seq<ClientView>, n0: nat, k: nat)
    requires k <= |bs|
    ensures SeparatorCount(AppleStackPlaced(bs, n0, k)) == k
  {
    if k > 0 {
      var prev := AppleStackPlaced(bs, n0, k - 1);
      AppleStackPlacedLines(bs, n0, k - 1);
      SeparatorCountAppend(prev, [bs[k - 1], Line(n0 + k - 1)]);
      assert [bs[k - 1], Line(n0 + k - 1)][1..] == [Line(n0 + k - 1)];
    }
  }

  /** The apple loop places each of the first `k` buttons and `k` new separators
      numbered from `n0`, and nothing else. */
  lemma {:induction false} AppleStackPlacedMembers(bs: seq<ClientView>, n0: nat, k: nat)
    requires k <= |bs|
    ensures forall v <- AppleStackPlaced(bs, n0, k) :: (v.Line? && n0 <= v.serial < n0 + k) || v in bs[..k]
    ensures forall i :: 0 <= i < k ==> bs[i] in AppleStackPlaced(bs, n0, k)
    ensures Distinct(bs) ==> Distinct(AppleStackPlaced(bs, n0, k))
  {
    if k > 0 {
      var prev := AppleStackPlaced(bs, n0, k - 1);
      AppleStackPlacedMembers(bs, n0, k - 1);
      AppleStackPlacedSnoc(bs, n0, k);
      assert bs[..k] == bs[..k - 1] + [bs[k - 1]];
      if Distinct(bs) {
        assert bs[k - 1] !in bs[..k - 1];
        DistinctSnoc(prev, bs[k - 1]);
        DistinctSnoc(prev + [bs[k - 1]], Line(n0 + k - 1));
      }
    }
  }

  /** A branch places every button of the list, the separators it creates, all
      numbered from `n0` and none twice, and nothing else; the custom style places
      the buttons alone, and an empty list places nothing. */
  lemma PlacedFacts(style: Style, m: Mode, bs: seq<ClientView>, n0: nat)
    requires Fits(m, |bs|)
    ensures SeparatorCount(Placed(style, m, bs, n0)) == NewLines(style, m, |bs|)
    ensures forall v <- Placed(style, m, bs, n0) :: (v.Line? && n0 <= v.serial < n0 + NewLines(style, m, |bs|)) || v in bs
    ensures forall b <- bs :: b in Placed(style, m, bs, n0)
    ensures Distinct(bs) ==> Distinct(Placed(style, m, bs, n0))
    ensures style == Custom ==> Placed(style, m, bs, n0) == bs
    ensures |bs| == 0 ==> Placed(style, m, bs, n0) == []
  {
    match style
    case Custom =>
      NoSeparators(bs);
    case Apple =>
      match m
      case Pair =>
        var p := [Line(n0), bs[0], bs[1], Line(n0 + 1)];
        SeparatorCountAppend([Line(n0), bs[0]], [bs[1], Line(n0 + 1)]);
        assert [Line(n0), bs[0]][1..] == [bs[0]];
        assert [bs[1], Line(n0 + 1)][1..] == [Line(n0 + 1)];
        assert p == [Line(n0), bs[0]] + [bs[1], Line(n0 + 1)];
        assert forall b <- bs :: b == bs[0] || b == bs[1];
      case Single =>
        assert [Line(n0), bs[0]][1..] == [bs[0]];
        assert forall b <- bs :: b == bs[0];
      case Stack =>
        AppleStackPlacedLines(bs, n0, |bs|);
        AppleStackPlacedMembers(bs, n0, |bs|);
        assert bs[..|bs|] == bs;
        assert forall b <- bs :: exists i :: 0 <= i < |bs| && b == bs[i];
  }

  // ------------------------------------------------- constraints a branch emits

  /** Every constraint of either style goes to the action container; apple-style
      chains are flush throughout, custom-style chains use the padding sideways
      and the margin vertically; and a button only ever gets the action height. */
  lemma EmittedShape(cfg: ActionConfig, m: Mode, bs: seq<ClientView>, n0: nat)
    requires Fits(m, |bs|)
    ensures cfg.style == Apple ==> forall e <- Emitted(cfg, m, bs, n0) :: AppleShaped(e, cfg.height)
    ensures cfg.style == Custom ==> forall e <- Emitted(cfg, m, bs, n0) :: CustomShaped(e, cfg.height, cfg.padding, cfg.margin)
    ensures forall e <- Emitted(cfg, m, bs, n0) :: e.owner == ActionContainer
  {
    var h := cfg.height;
    match cfg.style
    case Apple =>
      match m {
        case Pair => ApplePairShaped(h, bs[0], bs[1], Line(n0), Line(n0 + 1));
        case Single => AppleSingleShaped(h, bs[0], Line(n0));
        case Stack => AppleStackShaped(bs, h, n0, |bs|);
      }
    case Custom =>
      match m {
        case Pair => CustomPairShaped(h, cfg.padding, cfg.margin, bs[0], bs[1]);
        case Single => CustomSingleShaped(h, cfg.padding, cfg.margin, bs[0]);
        case Stack => CustomStackShaped(bs, h, cfg.padding, cfg.margin, |bs|);
      }
  }

  lemma ApplePairShaped(h: int, first: View, last: View, hline: View, vline: View)
    requires hline.Line? && vline.Line?
    ensures forall e <- ApplePairEntries(h, first, last, hline, vline) :: AppleShaped(e, h)
  {
  }

  lemma AppleSingleShaped(h: int, the: View, hline: View)
    requires hline.Line?
    ensures forall e <- AppleSingleEntries(h, the, hline) :: AppleShaped(e, h)
  {
  }

  lemma CustomPairShaped(h: int, p: int, m: int, first: View, last: View)
    ensures forall e <- CustomPairEntries(h, p, m, first, last) :: CustomShaped(e, h, p, m)
  {
  }

  lemma CustomSingleShaped(h: int, p: int, m: int, the: View)
    ensures forall e <- CustomSingleEntries(h, p, m, the) :: CustomShaped(e, h, p, m)
  {
  }

  /** The action layout adds no image group. */
  lemma EmittedNoImageGroup(cfg: ActionConfig, m: Mode, bs: seq<ClientView>, n0: nat)
    requires Fits(m, |bs|)
    ensures Count(Emitted(cfg, m, bs, n0), ImageGroupPattern) == 0
  {
    EmittedShape(cfg, m, bs, n0);
    CountZero(Emitted(cfg, m, bs, n0), ImageGroupPattern);
  }

  /** Only the pair branch, in either style, makes one button as wide as the other,
      and it does so once. */
  lemma EqualWidthCount(cfg: ActionConfig, m: Mode, bs: seq<ClientView>, n0: nat)
    requires Fits(m, |bs|)
    ensures Count(Emitted(cfg, m, bs, n0), EqualWidthPattern) == if m == Pair then 1 else 0
  {
    var es := Emitted(cfg, m, bs, n0);
    match m
    case Pair =>
      var i := if cfg.style == Apple then 3 else 0;
      assert Matches(es[i], EqualWidthPattern);
      CountOne(es, i, EqualWidthPattern);
    case Single =>
      assert forall e <- es :: !Matches(e, EqualWidthPattern);
      CountZero(es, EqualWidthPattern);
    case Stack =>
      if cfg.style == Apple {
        AppleStackAllChains(bs, cfg.height, n0, |bs|);
      } else {
        CustomStackAllChains(bs, cfg.height, cfg.padding, cfg.margin, |bs|);
      }
      CountZero(es, EqualWidthPattern);
  }

  lemma {:induction false} AppleStackAllChains(bs: seq<ClientView>, h: int, n0: nat, k: nat)
    requires k <= |bs|
    ensures forall e <- AppleStackEntries(bs, h, n0, k) :: e.constraint.Chain?
  {
    if k > 0 {
      AppleStackAllChains(bs, h, n0, k - 1);
    }
  }

  lemma {:induction false} CustomStackAllChains(bs: seq<ClientView>, h: int, p: int, m: int, k: nat)
    requires k <= |bs|
    ensures forall e <- CustomStackEntries(bs, h, p, m, k) :: e.constraint.Chain?
  {
    if k > 0 {
      CustomStackAllChains(bs, h, p, m, k - 1);
    }
  }

  /** Every button of the list gets the action height, in every branch of both styles. */
  lemma ButtonHeights(cfg: ActionConfig, m: Mode, bs: seq<ClientView>, n0: nat)
    requires Fits(m, |bs|)
    ensures forall i :: 0 <= i < |bs| ==> HasHeight(Emitted(cfg, m, bs, n0), bs[i], cfg.height)
  {
    var es, h := Emitted(cfg, m, bs, n0), cfg.height;
    forall i | 0 <= i < |bs|
      ensures HasHeight(es, bs[i], h)
    {
      var e: Entry;
      match cfg.style
      case Apple =>
        match m {
          case Pair =>
            e := if i == 0 then es[6] else es[8];
          case Single =>
            e := es[4];
          case Stack =>
            AppleStackLines(bs, h, n0, |bs|);
            e := InAction(FixedHeight(bs[i], h));
        }
      case Custom =>
        match m {
          case Pair =>
            e := if i == 0 then es[2] else es[3];
          case Single =>
            e := es[3];
          case Stack =>
            CustomStackHeights(bs, h, cfg.padding, cfg.margin, |bs|);
            e := InAction(FixedHeight(bs[i], h));
        }
      assert e in es && e.constraint.Chain? && e.constraint.axis == V && Item(bs[i], Some(h)) in e.constraint.items;
    }
  }

  /** In the custom pair and single branches the first button's vertical chain
      reaches both edges; by `EmittedShape` both of its gaps are the margin. */
  lemma CustomFirstButtonMargins(cfg: ActionConfig, m: Mode, bs: seq<ClientView>, n0: nat)
    requires Fits(m, |bs|) && cfg.style == Custom && m != Stack
    ensures exists e <- Emitted(cfg, m, bs, n0) ::
      e.constraint.Chain? && e.constraint.axis == V && e.constraint.lead == Some(Space(cfg.margin, Required)) &&
      e.constraint.trail == Some(Space(cfg.margin, Required)) && e.constraint.items == [Item(bs[0], Some(cfg.height))]
  {
    var es := Emitted(cfg, m, bs, n0);
    var e := if m == Pair then es[2] else es[3];
    assert e in es;
  }
}
