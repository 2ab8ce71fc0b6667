/**
 * What `setActionButtons`, `setAppleStyleActions` and `setCustomStyleActions`
 * place in the action container and which constraints they add to it, as
 * functions of the button list and the action properties.  The class in
 * `alert_view.dfy` runs the same steps one at a time and is proved to end in
 * the state these functions describe.
 */
module ActionLayout {
  import opened Wrappers
  import opened ViewTree
  import opened Constraints
  import opened CardSkeleton

  /** `AEBaseAlertViewStyle`. */
  datatype Style = Apple | Custom

  /** `AEButtonArrangementMode`. */
  datatype Arrangement = Horizontal | Vertical

  /** The three branches of both style methods. */
  datatype Mode = Pair | Single | Stack

  /** The branch a list of `n` buttons takes. */
  function ModeOf(n: nat, arrangement: Arrangement): (m: Mode)
    ensures m == Pair ==> n == 2
    ensures m == Single ==> n == 1
  {
    if n == 2 && arrangement == Horizontal then Pair
    else if n == 1 then Single
    else Stack
  }

  /** The action properties the layout reads. */
  datatype ActionConfig = ActionConfig(style: Style, arrangement: Arrangement, height: int, padding: int, margin: int)

  /** A branch fits a list when it has the number of buttons the branch indexes. */
  predicate Fits(m: Mode, n: nat) {
    (m == Pair ==> n == 2) && (m == Single ==> n == 1)
  }

  function InAction(c: Constraint): Entry {
    Entry(ActionContainer, c)
  }

  /** `V:[v(h)]`. */
  function FixedHeight(v: View, h: int): Constraint {
    Chain(V, None, [Item(v, Some(h))], [], None, false)
  }

  /** The pins holding a separator across the top of the action container. */
  function TopLinePins(line: View): seq<Entry> {
    [ InAction(Pin(line, Top, ActionContainer)),
      InAction(Pin(line, Left, ActionContainer)),
      InAction(Pin(line, Width, ActionContainer)) ]
  }

  /** `V:|[line(1)][v(h)]|`: `v`, `h` high, below a 1-unit line, from edge to edge. */
  function UnderLine(line: View, v: View, h: int): Constraint {
    Chain(V, Some(Flush), [Item(line, Some(1)), Item(v, Some(h))], [Flush], Some(Flush), false)
  }

  // ---------------------------------------------------------------- apple style

  function ApplePairEntries(h: int, first: View, last: View, hline: View, vline: View): seq<Entry> {
    TopLinePins(hline) +
    [ InAction(Pin(first, Width, last)),
      InAction(Pin(vline, CenterX, ActionContainer)),
      InAction(Chain(H, Some(Flush), [Item(first, None), Item(vline, Some(1)), Item(last, None)], [Flush, Flush], Some(Flush), true)),
      InAction(UnderLine(hline, first, h)),
      InAction(UnderLine(hline, vline, h)),
      InAction(UnderLine(hline, last, h)) ]
  }

  function AppleSingleEntries(h: int, the: View, hline: View): seq<Entry> {
    TopLinePins(hline) + [InAction(HPad(the, Flush)), InAction(UnderLine(hline, the, h))]
  }

  /** The apple loop's chain for separator `line` of button `i`: 1 unit thick and
      directly above the button, under the top edge for the first button and
      under the previous button otherwise. */
  function SeparatorChain(bs: seq<ClientView>, line: View, i: nat): Constraint
    requires i < |bs|
  {
    if i == 0 then Chain(V, Some(Flush), [Item(line, Some(1)), Item(bs[i], None)], [Flush], None, false)
    else Chain(V, None, [Item(bs[i - 1], None), Item(line, Some(1)), Item(bs[i], None)], [Flush, Flush], None, false)
  }

  /** The chain of separator `i`, the `n0 + i`-th separator created. */
  function LineAbove(bs: seq<ClientView>, n0: nat, i: nat): Constraint
    requires i < |bs|
  {
    SeparatorChain(bs, Line(n0 + i), i)
  }

  /** What iteration `i` of the apple loop adds: the button full width and `h` high,
      a full-width separator, the separator's chain, and for the last button a pin
      to the bottom edge. */
  function AppleStackStep(bs: seq<ClientView>, h: int, n0: nat, i: nat): seq<Entry>
    requires i < |bs|
  {
    var b := bs[i];
    [ InAction(HPad(b, Flush)),
      InAction(FixedHeight(b, h)),
      InAction(HPad(Line(n0 + i), Flush)),
      InAction(LineAbove(bs, n0, i)) ] +
    (if i == |bs| - 1 then [InAction(Chain(V, None, [Item(b, None)], [], Some(Flush), false))] else [])
  }

  /** The first `k` iterations of the apple loop. */
  function AppleStackEntries(bs: seq<ClientView>, h: int, n0: nat, k: nat): seq<Entry>
    requires k <= |bs|
  {
    if k == 0 then [] else AppleStackEntries(bs, h, n0, k - 1) + AppleStackStep(bs, h, n0, k - 1)
  }

  /** The views the first `k` iterations of the apple loop add: each button, then its line. */
  function AppleStackPlaced(bs: seq<ClientView>, n0: nat, k: nat): seq<View>
    requires k <= |bs|
  {
    if k == 0 then [] else AppleStackPlaced(bs, n0, k - 1) + [bs[k - 1], Line(n0 + k - 1)]
  }

  // --------------------------------------------------------------- custom style

  function CustomPairEntries(h: int, p: int, m: int, first: View, last: View): seq<Entry> {
    [ InAction(Pin(first, Width, last)),
      InAction(Chain(H, Some(Space(p, Required)), [Item(first, None), Item(last, None)], [Standard], Some(Space(p, Required)), true)),
      InAction(Chain(V, Some(Space(m, Required)), [Item(first, Some(h))], [], Some(Space(m, Required)), false)),
      InAction(FixedHeight(last, h)) ]
  }

  function CustomSingleEntries(h: int, p: int, m: int, the: View): seq<Entry> {
    [ InAction(Pin(the, CenterY, ActionContainer)),
      InAction(Pin(the, CenterX, ActionContainer)),
      InAction(HPad(the, Space(p, Required))),
      InAction(Chain(V, Some(Space(m, Required)), [Item(the, Some(h))], [], Some(Space(m, Required)), false)) ]
  }

  /** The custom loop's margin `m` above button `i`: to the top edge for the first
      button, to the previous button otherwise. */
  function MarginAbove(bs: seq<ClientView>, m: int, i: nat): Constraint
    requires i < |bs|
  {
    if i == 0 then Chain(V, Some(Space(m, Required)), [Item(bs[i], None)], [], None, false)
    else Chain(V, None, [Item(bs[i - 1], None), Item(bs[i], None)], [Space(m, Required)], None, false)
  }

  /** What iteration `i` of the custom loop adds: the button padded by `p` and `h`
      high, the margin above it, and for the last button a margin `m` to the bottom. */
  function CustomStackStep(bs: seq<ClientView>, h: int, p: int, m: int, i: nat): seq<Entry>
    requires i < |bs|
  {
    var b := bs[i];
    [ InAction(HPad(b, Space(p, Required))),
      InAction(FixedHeight(b, h)),
      InAction(MarginAbove(bs, m, i)) ] +
    (if i == |bs| - 1 then [InAction(Chain(V, None, [Item(b, None)], [], Some(Space(m, Required)), false))] else [])
  }

  function CustomStackEntries(bs: seq<ClientView>, h: int, p: int, m: int, k: nat): seq<Entry>
    requires k <= |bs|
  {
    if k == 0 then [] else CustomStackEntries(bs, h, p, m, k - 1) + CustomStackStep(bs, h, p, m, k - 1)
  }

  // -------------------------------------------------------------- either style

  /** The views a style method adds to the action container, in order; separators
      are numbered from `n0`. */
  function Placed(style: Style, m: Mode, bs: seq<ClientView>, n0: nat): seq<View>
    requires Fits(m, |bs|)
  {
    match style
    case Apple => (
      match m
      case Pair => [Line(n0), bs[0], bs[1], Line(n0 + 1)]
      case Single => [Line(n0), bs[0]]
      case Stack => AppleStackPlaced(bs, n0, |bs|))
    case Custom => bs
  }

  /** The constraints a style method adds, in order. */
  function Emitted(cfg: ActionConfig, m: Mode, bs: seq<ClientView>, n0: nat): seq<Entry>
    requires Fits(m, |bs|)
  {
    match cfg.style
    case Apple => (
      match m
      case Pair => ApplePairEntries(cfg.height, bs[0], bs[1], Line(n0), Line(n0 + 1))
      case Single => AppleSingleEntries(cfg.height, bs[0], Line(n0))
      case Stack => AppleStackEntries(bs, cfg.height, n0, |bs|))
    case Custom => (
      match m
      case Pair => CustomPairEntries(cfg.height, cfg.padding, cfg.margin, bs[0], bs[1])
      case Single => CustomSingleEntries(cfg.height, cfg.padding, cfg.margin, bs[0])
      case Stack => CustomStackEntries(bs, cfg.height, cfg.padding, cfg.margin, |bs|))
  }

  /** The number of separator views a style method creates. */
  function NewLines(style: Style, m: Mode, n: nat): nat {
    match style
    case Apple => (match m case Pair => 2 case Single => 1 case Stack => n)
    case Custom => 0
  }

  /** The part of the card these methods read and change. */
  datatype ActionState = ActionState(tree: Hierarchy, log: seq<Entry>, lines: nat)

  /** What an empty list adds to the card before the style method runs. */
  function ClearedEntries(): seq<Entry> {
    [Entry(Background, HPad(ActionContainer, Flush)), Entry(Background, EmptyActionsChain())]
  }

  /** The first half of `setActionButtons`: every listed button leaves its
      superview; an empty list also empties the action container and re-chains
      the card. */
  function Cleared(s: ActionState, bs: seq<ClientView>): ActionState {
    var t := DetachedAll(s.tree, bs);
    ActionState(if |bs| == 0 then DetachedAll(t, t.action) else t,
                if |bs| == 0 then s.log + ClearedEntries() else s.log,
                s.lines)
  }

  /** The style method the card's style selects, run on `bs`. */
  function Arranged(s: ActionState, cfg: ActionConfig, bs: seq<ClientView>): ActionState {
    var m := ModeOf(|bs|, cfg.arrangement);
    ActionState(
      AddedAll(s.tree, ActionBox, Placed(cfg.style, m, bs, s.lines)),
      s.log + Emitted(cfg, m, bs, s.lines),
      s.lines + NewLines(cfg.style, m, |bs|))
  }

  /** `setActionButtons`: nothing for a missing list, otherwise clear, then arrange. */
  function AssignActions(s: ActionState, cfg: ActionConfig, buttons: Option<seq<ClientView>>): ActionState {
    if buttons.None? then s else Arranged(Cleared(s, buttons.value), cfg, buttons.value)
  }
}
