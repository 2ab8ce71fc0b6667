/**
 * The constraints `config`, `initBackgroundImage` and `initSubviews` install,
 * and the chains the spacing, padding, message-height and background-image
 * setters append.  Every vertical chain of the card runs through the same five
 * regions; a setter's chain is the default chain with one value substituted.
 */
module CardSkeleton {
  import opened Wrappers
  import opened ViewTree
  import opened Constraints

  /** The five stacked regions of the card. */
  datatype Region = Title | Message | ContentSlot | CustomSlot | ActionArea

  function RegionView(r: Region): View {
    match r
    case Title => TitleLabel
    case Message => MessageText
    case ContentSlot => ContentContainer
    case CustomSlot => CustomContainer
    case ActionArea => ActionContainer
  }

  /** Top to bottom, as the skeleton and every setter chain them. */
  const CardOrder: seq<Region> := [Title, Message, ContentSlot, CustomSlot, ActionArea]

  /** The order of the chain an empty button list installs: custom slot above content slot. */
  const EmptyActionsOrder: seq<Region> := [Title, Message, CustomSlot, ContentSlot, ActionArea]

  /** The gap above each region, from the top edge down: 20, 10, 5, 5, 20, all at priority 750. */
  const DefaultAbove: seq<Gap> := [Space(20, High), Space(10, High), Space(5, High), Space(5, High), Space(20, High)]

  /** A vertical chain over the five regions in `order`, with `above[k]` above the
      k-th region, `bottom` below the last one, and an optional fixed height for
      the message. */
  function RegionChain(order: seq<Region>, above: seq<Gap>, bottom: Gap, messageHeight: Option<int>): Constraint
    requires |order| == 5 && |above| == 5
  {
    Chain(V, Some(above[0]), RegionItems(order, messageHeight), above[1..], Some(bottom), false)
  }

  function RegionItems(order: seq<Region>, messageHeight: Option<int>): seq<Item> {
    seq(|order|, k requires 0 <= k < |order| => Item(RegionView(order[k]), if order[k] == Message then messageHeight else None))
  }

  /** The gap above the k-th item of a vertical chain: the lead for the first, a
      between-gap for the rest. */
  function GapAbove(c: Constraint, k: nat): Option<Gap>
    requires c.Chain? && WellFormed(c) && k < |c.items|
  {
    if k == 0 then c.lead else Some(c.gaps[k - 1])
  }

  /** The default five-region chain of `initSubviews`. */
  function DefaultChain(): Constraint {
    RegionChain(CardOrder, DefaultAbove, Flush, None)
  }

  /** Which spacing setter: the gap above the title (0), message (1), content slot (2),
      custom slot (3) or action area (4). */
  type Position = k: nat | k < 5

  const TitleTop: Position := 0
  const MessageTop: Position := 1
  const ContentTop: Position := 2
  const CustomTop: Position := 3
  const ActionTop: Position := 4

  /** The chain a spacing setter appends: the default one, with the gap above
      region `k` replaced by a required gap `m`. */
  function SpacingChain(k: Position, m: int): Constraint {
    RegionChain(CardOrder, DefaultAbove[k := Space(m, Required)], Flush, None)
  }

  /** The chain `setActionViewBottomMargin` appends: the gap to the bottom edge becomes `m`. */
  function BottomMarginChain(m: int): Constraint {
    RegionChain(CardOrder, DefaultAbove, Space(m, Required), None)
  }

  /** The chain `setMessageHeight` appends: the default chain, the message `h` high. */
  function MessageHeightChain(h: int): Constraint {
    RegionChain(CardOrder, DefaultAbove, Flush, Some(h))
  }

  /** The chain an empty button list appends. */
  function EmptyActionsChain(): Constraint {
    RegionChain(EmptyActionsOrder, DefaultAbove, Flush, None)
  }

  /** The four constraints `config` adds to the host for the card. */
  function CardConstraints(maximumWidth: int): seq<Entry> {
    [ Entry(Host, Pin(Background, CenterX, Host)),
      Entry(Host, Relate(Background, Width, Equal, None, NotAnAttribute, 0, maximumWidth)),
      Entry(Host, Pin(Background, CenterY, Host)),
      Entry(Host, Relate(Background, Height, AtMost, Some(Host), Height, 90, 0)) ]
  }

  /** The horizontal pad of each region, and of the background image, as `initSubviews`
      and `initBackgroundImage` install them. */
  function SkeletonPads(): seq<Entry> {
    [ Entry(Background, HPad(BackgroundImage, Flush)),
      Entry(Background, HPad(TitleLabel, Space(51, High))),
      Entry(Background, HPad(MessageText, Space(24, High))),
      Entry(Background, HPad(ContentContainer, Flush)),
      Entry(Background, HPad(CustomContainer, Flush)),
      Entry(Background, HPad(ActionContainer, Flush)) ]
  }

  /** Everything the constructor installs, in order. */
  function SkeletonLog(maximumWidth: int): seq<Entry> {
    CardConstraints(maximumWidth) + SkeletonPads() + [Entry(Background, DefaultChain())]
  }

  /** The group the background-image setters install: `V:|[backgroundImage(height)]-margin-|`. */
  function ImageGroup(height: int, margin: int): Constraint {
    Chain(V, Some(Flush), [Item(BackgroundImage, Some(height))], [], Some(Space(margin, Required)), false)
  }

  /** `setBackgroundImageBottomMargin` sizes the image by `backgroundImageHeight`,
      or by the image's own height when that property is 0. */
  function ImageHeight(backgroundImageHeight: int, naturalHeight: int): int {
    if backgroundImageHeight == 0 then naturalHeight else backgroundImageHeight
  }

  /** The log with its entry `i` taken out, or unchanged. */
  function RemovedAt(log: seq<Entry>, i: Option<nat>): (r: seq<Entry>)
    ensures i.Some? && i.value < |log| ==> |r| == |log| - 1
    ensures !(i.Some? && i.value < |log|) ==> r == log
  {
    if i.Some? && i.value < |log| then log[..i.value] + log[i.value + 1..] else log
  }

  /** Taking entry `i` out removes that one entry and keeps every other, the
      order aside. */
  lemma RemovedAtDropsOne(log: seq<Entry>, i: nat)
    requires i < |log|
    ensures multiset(RemovedAt(log, Some(i))) == multiset(log) - multiset{log[i]}
  {
    assert log == log[..i] + [log[i]] + log[i + 1..];
  }

  /** A horizontal pad of `v` in `es`, with the gap used on its two sides. */
  predicate PaddedBy(es: seq<Entry>, v: View, g: Gap) {
    Entry(Background, HPad(v, g)) in es
  }

  /** The skeleton's chain: the regions chained top to bottom in the order title,
      message, content slot, custom slot, action area, with gaps 20, 10, 5, 5, 20
      at priority 750 and the action area flush with the bottom. */
  lemma DefaultLayout(w: int)
    ensures var c := DefaultChain();
      c.Chain? && WellFormed(c) && c.axis == V &&
      ChainViews(c.items) == [TitleLabel, MessageText, ContentContainer, CustomContainer, ActionContainer] &&
      (forall k :: 0 <= k < 5 ==> c.items[k].size.None?) &&
      GapAbove(c, 0) == Some(Space(20, High)) && GapAbove(c, 1) == Some(Space(10, High)) &&
      GapAbove(c, 2) == Some(Space(5, High)) && GapAbove(c, 3) == Some(Space(5, High)) &&
      GapAbove(c, 4) == Some(Space(20, High)) && c.trail == Some(Flush) &&
      Entry(Background, c) in SkeletonLog(w)
  {
    var c := DefaultChain();
    assert SkeletonLog(w)[10] == Entry(Background, c);
    assert ChainViews(c.items) == [TitleLabel, MessageText, ContentContainer, CustomContainer, ActionContainer];
  }

  /** The rest of the skeleton: a centred card of required width `maximumWidth`
      and at most nine tenths of the host's height; the title padded by 51 and
      the message by 24 at priority 750, and the image and the three containers
      flush with the card's sides; no image group yet. */
  lemma SkeletonEntries(w: int)
    ensures Entry(Host, Relate(Background, Width, Equal, None, NotAnAttribute, 0, w)) in SkeletonLog(w)
    ensures Entry(Host, Relate(Background, Height, AtMost, Some(Host), Height, 90, 0)) in SkeletonLog(w)
    ensures Entry(Host, Pin(Background, CenterX, Host)) in SkeletonLog(w)
    ensures Entry(Host, Pin(Background, CenterY, Host)) in SkeletonLog(w)
    ensures PaddedBy(SkeletonLog(w), TitleLabel, Space(51, High))
    ensures PaddedBy(SkeletonLog(w), MessageText, Space(24, High))
    ensures forall v <- [BackgroundImage, ContentContainer, CustomContainer, ActionContainer] :: PaddedBy(SkeletonLog(w), v, Flush)
    ensures |SkeletonLog(w)| == 11 && Count(SkeletonLog(w), ImageGroupPattern) == 0
  {
    var log := SkeletonLog(w);
    assert log[1] == Entry(Host, Relate(Background, Width, Equal, None, NotAnAttribute, 0, w));
    assert log[3] == Entry(Host, Relate(Background, Height, AtMost, Some(Host), Height, 90, 0));
    assert log[0] == Entry(Host, Pin(Background, CenterX, Host));
    assert log[2] == Entry(Host, Pin(Background, CenterY, Host));
    assert log[5] == Entry(Background, HPad(TitleLabel, Space(51, High)));
    assert log[6] == Entry(Background, HPad(MessageText, Space(24, High)));
    assert log[4] == Entry(Background, HPad(BackgroundImage, Flush));
    assert log[7] == Entry(Background, HPad(ContentContainer, Flush));
    assert log[8] == Entry(Background, HPad(CustomContainer, Flush));
    assert log[9] == Entry(Background, HPad(ActionContainer, Flush));
    SkeletonHasNoImageGroup(w);
  }

  lemma SkeletonHasNoImageGroup(w: int)
    ensures Count(SkeletonLog(w), ImageGroupPattern) == 0
  {
    var log := SkeletonLog(w);
    assert log[10].constraint.items[0].view == TitleLabel;
    assert forall e <- log :: !Matches(e, ImageGroupPattern);
    CountZero(log, ImageGroupPattern);
  }

  /** A spacing setter's chain differs from the default chain only in its own gap,
      which is `m` at required priority: the same regions in the same order, the
      same fixed sizes, the same bottom gap, every other gap as before. */
  lemma SpacingSubstitution(k: Position, m: int)
    ensures var c, d := SpacingChain(k, m), DefaultChain();
      c.Chain? && WellFormed(c) && c.axis == d.axis && c.items == d.items && c.trail == d.trail &&
      GapAbove(c, k) == Some(Space(m, Required)) &&
      (forall j :: 0 <= j < 5 && j != k ==> GapAbove(c, j) == GapAbove(d, j))
  {
  }

  /** `setActionViewBottomMargin`'s chain keeps every gap above a region and
      changes only the gap below the action area. */
  lemma BottomMarginSubstitution(m: int)
    ensures var c, d := BottomMarginChain(m), DefaultChain();
      c.Chain? && c.items == d.items && c.lead == d.lead && c.gaps == d.gaps &&
      c.trail == Some(Space(m, Required))
  {
  }

  /** `setMessageHeight`'s chain is the default one except that the message, and
      only the message, has the fixed height `h`. */
  lemma MessageHeightOnly(h: int)
    ensures var c, d := MessageHeightChain(h), DefaultChain();
      c.Chain? && WellFormed(c) && c.lead == d.lead && c.gaps == d.gaps && c.trail == d.trail &&
      ChainViews(c.items) == ChainViews(d.items) &&
      c.items[1] == Item(MessageText, Some(h)) &&
      (forall j :: 0 <= j < 5 && j != 1 ==> c.items[j] == d.items[j])
  {
    var c, d := MessageHeightChain(h), DefaultChain();
    assert forall j :: 0 <= j < 5 ==> c.items[j].view == d.items[j].view;
    assert ChainViews(c.items) == ChainViews(d.items);
  }

  /** The chain of an empty button list has the default gaps, but the custom slot
      comes before the content slot. */
  lemma EmptyActionsOrderSwapped()
    ensures var c, d := EmptyActionsChain(), DefaultChain();
      c.Chain? && c.lead == d.lead && c.gaps == d.gaps && c.trail == d.trail &&
      ChainViews(c.items) == [TitleLabel, MessageText, CustomContainer, ContentContainer, ActionContainer] &&
      ChainViews(c.items) != ChainViews(d.items)
  {
    var c, d := EmptyActionsChain(), DefaultChain();
    assert ChainViews(c.items)[2] == CustomContainer;
    assert ChainViews(d.items)[2] == ContentContainer;
  }

  /** Every chain the setters append is not an image group, so only the image
      setters change the number of image groups in the log. */
  lemma SetterChainsAreNotImageGroups(k: Position, m: int, h: int, p: int)
    ensures !Matches(Entry(Background, SpacingChain(k, m)), ImageGroupPattern)
    ensures !Matches(Entry(Background, BottomMarginChain(m)), ImageGroupPattern)
    ensures !Matches(Entry(Background, MessageHeightChain(h)), ImageGroupPattern)
    ensures !Matches(Entry(Background, EmptyActionsChain()), ImageGroupPattern)
    ensures !Matches(Entry(Background, HPad(TitleLabel, Space(p, Required))), ImageGroupPattern)
    ensures !Matches(Entry(Background, HPad(MessageText, Space(p, Required))), ImageGroupPattern)
    ensures !Matches(Entry(Background, HPad(ActionContainer, Flush)), ImageGroupPattern)
    ensures Matches(Entry(Background, ImageGroup(h, m)), ImageGroupPattern)
  {
  }
}
