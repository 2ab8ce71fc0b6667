/**
 * The constraints the card hands to Auto Layout, as records.  A visual-format
 * string such as `V:|-20@750-[title]-10@750-[message]` becomes one `Chain`
 * record; an `NSLayoutConstraint(item:attribute:relatedBy:toItem:attribute:
 * multiplier:constant:)` call becomes one `Relate` record.  Nothing is solved:
 * the model only records which constraints the card installs, and on which view.
 */
module Constraints {
  import opened Wrappers
  import opened ViewTree

  /** `@750` in a format string, or no priority at all (required). */
  datatype Priority = Required | High

  /** A spacing in a chain: an explicit size with its priority, or the bare `-`
      of the format language, which asks for the system's standard spacing. */
  datatype Gap = Space(size: int, priority: Priority) | Standard

  /** Two neighbours written side by side (`|[a]` or `[a][b]`): no spacing, required. */
  const Flush: Gap := Space(0, Required)

  datatype Axis = H | V

  datatype Attribute = Top | Left | Width | Height | CenterX | CenterY | NotAnAttribute

  datatype Relation = Equal | AtMost

  /** A view in a chain, `[v]`, or with a fixed extent along the chain, `[v(size)]`. */
  datatype Item = Item(view: View, size: Option<int>)

  datatype Constraint =
      /** A visual-format chain along one axis.  `lead` and `trail` are the gaps to
          the superview's edges (`None` when the string does not start with or
          end in `|`), `gaps[k]` is the gap between `items[k]` and `items[k + 1]`,
          and `alignCenterY` records the `alignAllCenterY` option. */
    | Chain(axis: Axis, lead: Option<Gap>, items: seq<Item>, gaps: seq<Gap>, trail: Option<Gap>, alignCenterY: bool)
      /** `item.attr  rel  percent% * target.targetAttr + constant`; the multiplier
          is kept in percent so that the 0.9 of the card's height bound stays exact. */
    | Relate(item: View, attr: Attribute, rel: Relation, target: Option<View>, targetAttr: Attribute, percent: int, constant: int)

  /** A constraint together with the view it was added to. */
  datatype Entry = Entry(owner: View, constraint: Constraint)

  /** A chain is well formed when it has one gap between each pair of neighbours. */
  predicate WellFormed(c: Constraint) {
    c.Chain? ==> |c.items| > 0 && |c.gaps| == |c.items| - 1
  }

  /** `v.attr == to.attr`, multiplier 1, constant 0. */
  function Pin(v: View, attr: Attribute, to: View): Constraint {
    Relate(v, attr, Equal, Some(to), attr, 100, 0)
  }

  /** `H:|-g-[v]-g-|`: the same horizontal gap on both sides of one view. */
  function HPad(v: View, g: Gap): Constraint {
    Chain(H, Some(g), [Item(v, None)], [], Some(g), false)
  }

  /** The views a chain lays out, in order. */
  function ChainViews(items: seq<Item>): seq<View> {
    seq(|items|, k requires 0 <= k < |items| => items[k].view)
  }

  /** Kinds of constraint the properties of the card count. */
  datatype Pattern =
      /** The vertical group that sizes the background image. */
    | ImageGroupPattern
      /** One button made as wide as another. */
    | EqualWidthPattern
      /** A vertical chain that reaches the bottom edge of its superview. */
    | BottomPinPattern
      /** `V:|-(m)-[v]`: a required margin from the top edge to a view. */
    | LeadingMarginPattern(margin: int)
      /** `V:[a]-(m)-[b]`: a required margin between two views. */
    | BetweenMarginPattern(margin: int)
      /** `V:[v]-(m)-|`: a required margin from a view to the bottom edge. */
    | TrailingMarginPattern(margin: int)

  predicate Matches(e: Entry, p: Pattern) {
    var c := e.constraint;
    match p
    case ImageGroupPattern =>
      e.owner == Background && c.Chain? && c.axis == V && |c.items| > 0 && c.items[0].view == BackgroundImage
    case EqualWidthPattern =>
      c.Relate? && c.attr == Width && c.rel == Equal && c.targetAttr == Width &&
      c.item.Client? && c.target.Some? && c.target.value.Client?
    case BottomPinPattern =>
      c.Chain? && c.axis == V && c.trail.Some?
    case LeadingMarginPattern(m) =>
      c.Chain? && c.axis == V && c.lead == Some(Space(m, Required)) && c.trail.None?
    case BetweenMarginPattern(m) =>
      c.Chain? && c.axis == V && c.lead.None? && c.trail.None? &&
      |c.items| == 2 && c.gaps == [Space(m, Required)]
    case TrailingMarginPattern(m) =>
      c.Chain? && c.axis == V && c.lead.None? && c.trail == Some(Space(m, Required))
  }

  /** How many entries of `es` are of kind `p`. */
  function Count(es: seq<Entry>, p: Pattern): (n: nat)
    ensures n <= |es|
  {
    if es == [] then 0 else (if Matches(es[0], p) then 1 else 0) + Count(es[1..], p)
  }

  lemma {:induction false} CountAppend(a: seq<Entry>, b: seq<Entry>, p: Pattern)
    ensures Count(a + b, p) == Count(a, p) + Count(b, p)
  {
    if a == [] {
      assert a + b == b;
    } else {
      assert (a + b)[1..] == a[1..] + b;
      CountAppend(a[1..], b, p);
    }
  }

  /** No entry is of kind `p` exactly when the count is zero. */
  lemma {:induction false} CountZero(es: seq<Entry>, p: Pattern)
    ensures Count(es, p) == 0 <==> forall e <- es :: !Matches(e, p)
  {
    if es != [] {
      CountZero(es[1..], p);
      assert forall e <- es :: e == es[0] || e in es[1..];
    }
  }

  /** A log with exactly one entry of kind `p`, at position `i`. */
  lemma CountOne(es: seq<Entry>, i: nat, p: Pattern)
    requires i < |es| && Matches(es[i], p)
    requires forall j :: 0 <= j < |es| && j != i ==> !Matches(es[j], p)
    ensures Count(es, p) == 1
  {
    assert es == es[..i] + ([es[i]] + es[i + 1..]);
    CountAppend(es[..i], [es[i]] + es[i + 1..], p);
    CountAppend([es[i]], es[i + 1..], p);
    assert forall e <- es[..i] :: !Matches(e, p);
    assert forall e <- es[i + 1..] :: !Matches(e, p);
    CountZero(es[..i], p);
    CountZero(es[i + 1..], p);
  }

  /** Taking entry `i` out of the log lowers the count by one exactly when it was of kind `p`. */
  lemma CountRemove(es: seq<Entry>, i: nat, p: Pattern)
    requires i < |es|
    ensures Count(es[..i] + es[i + 1..], p) == Count(es, p) - (if Matches(es[i], p) then 1 else 0)
  {
    assert es == es[..i] + ([es[i]] + es[i + 1..]);
    CountAppend(es[..i], [es[i]] + es[i + 1..], p);
    CountAppend([es[i]], es[i + 1..], p);
    CountAppend(es[..i], es[i + 1..], p);
  }
}
