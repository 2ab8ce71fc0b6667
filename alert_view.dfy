/**
 * `AEBaseAlertView`: the alert card.  Its fields are the public properties of
 * the view, the two slot fields, and the parts of UIKit state the card changes:
 * the tree of subviews below the background view, the log of constraints it
 * has installed, and the number of separator views it has created.  Every
 * method runs the steps of its Swift counterpart in the same order and is
 * proved to end in the state the functions of `card_skeleton.dfy` and
 * `action_layout.dfy` describe.
 */
module AlertView {
  import opened Wrappers
  import opened ViewTree
  import opened Constraints
  import opened CardSkeleton
  import opened ActionLayout
  import opened ActionAssignment
  import opened CardState

  class BaseAlertView {
    // Action properties, read by the button layout.
    var alertStyle: Style
    var actionHeight: int
    var actionPadding: int
    var actionMargin: int
    var actionArrangementMode: Arrangement
    var actionList: Option<seq<ClientView>>

    /** The width the card is given once, when it is built. */
    var maximumWidth: int

    // Spacing properties; assigning one appends the matching constraints.
    var backgroundImageBottomMargin: int
    var backgroundImageHeight: int
    var titleTopMargin: int
    var titlePadding: int
    var messageTopMargin: int
    var messagePadding: int
    var messageHeight: int
    var contentViewTopMargin: int
    var customViewTopMargin: int
    var actionViewTopMargin: int
    var actionViewBottomMargin: int

    /** `backgroundImage.image`: the natural height of the image, when one is set. */
    var image: Option<int>
    /** `messageTextView.isScrollEnabled`. */
    var messageScrollEnabled: bool

    /** The views last handed to `setContent` and `setCustom`. */
    var contentView: Option<ClientView>
    var customView: Option<ClientView>

    /** The subviews of the background view and of its three containers. */
    var tree: Hierarchy
    /** Every constraint installed and not removed, in order of installation. */
    var log: seq<Entry>
    /** `backgroundImageVerticalCentering`: where the image group sits in the log. */
    var imageGroup: Option<nat>
    /** The number of separator views created so far. */
    var lines: nat

    /** The card's invariant, on the fields it constrains. */
    ghost predicate Valid()
      reads this`tree, this`lines, this`contentView, this`customView, this`log, this`imageGroup
    {
      CardValid(tree, lines, contentView, customView, log, imageGroup)
    }

    /** The part of the card the button layout reads and changes. */
    ghost function State(): ActionState
      reads this`tree, this`log, this`lines
    {
      ActionState(tree, log, lines)
    }

    /** The action properties as the button layout reads them. */
    function Config(): ActionConfig
      reads this`alertStyle, this`actionArrangementMode, this`actionHeight, this`actionPadding, this`actionMargin
    {
      ActionConfig(alertStyle, actionArrangementMode, actionHeight, actionPadding, actionMargin)
    }

    /** `init(frame:)`: the property defaults, then `config`. */
    constructor (screenWidth: int)
      ensures alertStyle == Apple && actionHeight == 40 && actionPadding == 8 && actionMargin == 8
      ensures actionArrangementMode == Horizontal && actionList.None?
      ensures maximumWidth == screenWidth - 48
      ensures backgroundImageBottomMargin == 0 && backgroundImageHeight == 0
      ensures titleTopMargin == 0 && titlePadding == 0 && messageTopMargin == 0 && messagePadding == 0
      ensures messageHeight == 0 && contentViewTopMargin == 0 && customViewTopMargin == 0
      ensures actionViewTopMargin == 0 && actionViewBottomMargin == 0
      ensures image.None? && !messageScrollEnabled && contentView.None? && customView.None?
      ensures tree == Hierarchy(Structure, [], [], []) && log == SkeletonLog(maximumWidth)
      ensures imageGroup.None? && lines == 0
      ensures Valid()
    {
      alertStyle := Apple;
      actionHeight := 40;
      actionPadding := 8;
      actionMargin := 8;
      actionArrangementMode := Horizontal;
      actionList := None;
      maximumWidth := screenWidth - 24 * 2;
      backgroundImageBottomMargin := 0;
      backgroundImageHeight := 0;
      titleTopMargin := 0;
      titlePadding := 0;
      messageTopMargin := 0;
      messagePadding := 0;
      messageHeight := 0;
      contentViewTopMargin := 0;
      customViewTopMargin := 0;
      actionViewTopMargin := 0;
      actionViewBottomMargin := 0;
      image := None;
      messageScrollEnabled := false;
      contentView := None;
      customView := None;
      tree := Hierarchy([], [], [], []);
      log := [];
      imageGroup := None;
      lines := 0;
      new;
      ConfigureCard();
      SkeletonSound(0);
      SkeletonHasNoImageGroup(maximumWidth);
    }

    // ------------------------------------------------------------ UIKit steps

    /** `parent.addSubview(v)`. */
    method AddSubview(parent: Container, v: View)
      modifies this`tree
      ensures tree == Added(old(tree), parent, v)
    {
      tree := Added(tree, parent, v);
    }

    /** `v.removeFromSuperview()`. */
    method RemoveFromSuperview(v: View)
      modifies this`tree
      ensures tree == Detached(old(tree), v)
    {
      tree := Detached(tree, v);
    }

    /** `owner.addConstraint(c)`, or `owner.addConstraints` of one visual-format string. */
    method Install(owner: View, c: Constraint)
      modifies this`log
      ensures log == old(log) + [Entry(owner, c)]
    {
      log := log + [Entry(owner, c)];
    }

    /** `UIView(frame: .zero)` for a separator. */
    method NewLine() returns (line: View)
      modifies this`lines
      ensures line == Line(old(lines)) && lines == old(lines) + 1
    {
      line := Line(lines);
      lines := lines + 1;
    }

    // -------------------------------------------------------------- skeleton

    /** `config`: the card's four constraints on the host, then the image and the regions. */
    method ConfigureCard()
      modifies this`tree, this`log
      requires tree == Hierarchy([], [], [], []) && log == []
      ensures tree == Hierarchy(Structure, [], [], []) && log == SkeletonLog(maximumWidth)
    {
      Install(Host, Pin(Background, CenterX, Host));
      Install(Host, Relate(Background, Width, Equal, None, NotAnAttribute, 0, maximumWidth));
      Install(Host, Pin(Background, CenterY, Host));
      Install(Host, Relate(Background, Height, AtMost, Some(Host), Height, 90, 0));
      assert log == CardConstraints(maximumWidth);
      InitBackgroundImage();
      InitSubviews();
      assert SkeletonLog(maximumWidth) == CardConstraints(maximumWidth) + (SkeletonPads() + [Entry(Background, DefaultChain())]);
    }

    /** `initBackgroundImage`: the image view, flush with both sides of the card. */
    method InitBackgroundImage()
      modifies this`tree, this`log
      requires tree == Hierarchy([], [], [], [])
      ensures tree == Hierarchy([BackgroundImage], [], [], [])
      ensures log == old(log) + [Entry(Background, HPad(BackgroundImage, Flush))]
    {
      AddedFresh(tree, BackgroundBox, BackgroundImage);
      AddSubview(BackgroundBox, BackgroundImage);
      Install(Background, HPad(BackgroundImage, Flush));
    }

    /** `initSubviews`: each region with its horizontal pad, then the vertical chain. */
    method InitSubviews()
      modifies this`tree, this`log
      requires tree == Hierarchy([BackgroundImage], [], [], [])
      ensures tree == Hierarchy(Structure, [], [], [])
      ensures log == old(log) + SkeletonPads()[1..] + [Entry(Background, DefaultChain())]
    {
      ghost var log0 := log;
      AddRegion(TitleLabel, Space(51, High));
      AddRegion(MessageText, Space(24, High));
      AddRegion(ContentContainer, Flush);
      AddRegion(CustomContainer, Flush);
      AddRegion(ActionContainer, Flush);
      assert tree.background == Structure;
      assert log == log0 + SkeletonPads()[1..];
      Install(Background, DefaultChain());
    }

    /** One region of `initSubviews`: added to the background view, then padded. */
    method AddRegion(v: View, pad: Gap)
      modifies this`tree, this`log
      requires v !in tree.All()
      ensures tree == old(tree).With(BackgroundBox, old(tree).background + [v])
      ensures log == old(log) + [Entry(Background, HPad(v, pad))]
    {
      AddedFresh(tree, BackgroundBox, v);
      AddSubview(BackgroundBox, v);
      Install(Background, HPad(v, pad));
    }

    // ---------------------------------------------------------- slot views

    /** `setContent(view:width:height:)`: the old content view leaves its
        superview, and `view` goes into the content container, `width` wide,
        `height` high and centred. */
    method SetContent(view: ClientView, width: int, height: int)
      modifies this`contentView, this`tree, this`log
      requires Valid()
      ensures contentView == Some(view) && tree.content == [view]
      ensures tree == Added(DetachedSlot(old(tree), old(contentView)), ContentBox, view)
      ensures log == old(log) + SlotEntries(ContentContainer, view, width, height)
      ensures Valid()
    {
      ghost var t0, l0, current := tree, log, contentView;
      if contentView.Some? {
        RemoveFromSuperview(contentView.value);
      }
      contentView := Some(view);
      AddSubview(ContentBox, view);
      InstallSlotConstraints(ContentContainer, view, width, height);
      ContentSlotInstalled(t0, lines, current, customView, view, l0, imageGroup, width, height, tree, contentView, log);
    }

    /** `setCustom(view:width:height:)`: the same for the custom container. */
    method SetCustom(view: ClientView, width: int, height: int)
      modifies this`customView, this`tree, this`log
      requires Valid()
      ensures customView == Some(view) && tree.custom == [view]
      ensures tree == Added(DetachedSlot(old(tree), old(customView)), CustomBox, view)
      ensures log == old(log) + SlotEntries(CustomContainer, view, width, height)
      ensures Valid()
    {
      ghost var t0, l0, current := tree, log, customView;
      if customView.Some? {
        RemoveFromSuperview(customView.value);
      }
      customView := Some(view);
      AddSubview(CustomBox, view);
      InstallSlotConstraints(CustomContainer, view, width, height);
      CustomSlotInstalled(t0, lines, current, contentView, view, l0, imageGroup, width, height, tree, customView, log);
    }

    /** The four constraints both slot installers add to their container:
        `H:[v(width)]`, `V:|[v(height)]|` and the two centrings. */
    method InstallSlotConstraints(container: View, v: View, width: int, height: int)
      modifies this`log
      ensures log == old(log) + SlotEntries(container, v, width, height)
    {
      Install(container, Chain(H, None, [Item(v, Some(width))], [], None, false));
      Install(container, Chain(V, Some(Flush), [Item(v, Some(height))], [], Some(Flush), false));
      Install(container, Pin(v, CenterX, container));
      Install(container, Pin(v, CenterY, container));
    }

    // ------------------------------------------------------- image setters

    /** `backgroundView.removeConstraints(backgroundImageVerticalCentering)`. */
    method RemoveConstraintsAt(i: nat)
      modifies this`log
      requires i < |log|
      ensures log == RemovedAt(old(log), Some(i))
    {
      log := log[..i] + log[i + 1..];
    }

    /** `backgroundImageBottomMargin`: with an image set, the image group is
        replaced by one sized by `backgroundImageHeight`, or by the image itself
        when that is 0, and ending `margin` above the card's bottom edge. */
    method SetBackgroundImageBottomMargin(margin: int)
      modifies this`backgroundImageBottomMargin, this`log, this`imageGroup
      requires Valid()
      ensures backgroundImageBottomMargin == margin
      ensures image.None? ==> log == old(log) && imageGroup == old(imageGroup)
      ensures image.Some? ==>
        log == RemovedAt(old(log), old(imageGroup)) + [Entry(Background, ImageGroup(ImageHeight(backgroundImageHeight, image.value), margin))] &&
        imageGroup == Some(|log| - 1) && Count(log, ImageGroupPattern) == 1
      ensures Valid()
    {
      backgroundImageBottomMargin := margin;
      if image.Some? {
        ReplaceImageGroup(ImageGroup(ImageHeight(backgroundImageHeight, image.value), margin));
      }
    }

    /** `backgroundImageHeight`: with an image set, the image group is replaced
        by one `height` high, ending `backgroundImageBottomMargin` above the
        card's bottom edge. */
    method SetBackgroundImageHeight(height: int)
      modifies this`backgroundImageHeight, this`log, this`imageGroup
      requires Valid()
      ensures backgroundImageHeight == height
      ensures image.None? ==> log == old(log) && imageGroup == old(imageGroup)
      ensures image.Some? ==>
        log == RemovedAt(old(log), old(imageGroup)) + [Entry(Background, ImageGroup(height, backgroundImageBottomMargin))] &&
        imageGroup == Some(|log| - 1) && Count(log, ImageGroupPattern) == 1
      ensures Valid()
    {
      backgroundImageHeight := height;
      if image.Some? {
        ReplaceImageGroup(ImageGroup(height, backgroundImageBottomMargin));
      }
    }

    /** The body both image setters share: the installed group, if any, is
        removed, and `group` is installed and remembered in its place. */
    method ReplaceImageGroup(group: Constraint)
      modifies this`log, this`imageGroup
      requires Valid() && Matches(Entry(Background, group), ImageGroupPattern)
      ensures log == RemovedAt(old(log), old(imageGroup)) + [Entry(Background, group)]
      ensures imageGroup == Some(|log| - 1) && Count(log, ImageGroupPattern) == 1
      ensures Valid()
    {
      ghost var l0, g0 := log, imageGroup;
      if imageGroup.Some? {
        RemoveConstraintsAt(imageGroup.value);
      }
      Install(Background, group);
      imageGroup := Some(|log| - 1);
      ImageGroupReplaced(tree, lines, contentView, customView, l0, g0, Entry(Background, group), log, imageGroup);
    }

    // ----------------------------------------------------- spacing setters

    /** Appends one entry that is not an image group, keeping the invariant. */
    method InstallSpacing(c: Constraint)
      modifies this`log
      requires Valid() && !Matches(Entry(Background, c), ImageGroupPattern)
      ensures log == old(log) + [Entry(Background, c)]
      ensures Valid()
    {
      TrackedAppend(log, imageGroup, Entry(Background, c));
      Install(Background, c);
    }

    /** `titleTopMargin`: the chain again, with `margin` above the title. */
    method SetTitleTopMargin(margin: int)
      modifies this`titleTopMargin, this`log
      requires Valid()
      ensures titleTopMargin == margin
      ensures log == old(log) + [Entry(Background, SpacingChain(TitleTop, margin))]
      ensures Valid()
    {
      titleTopMargin := margin;
      SetterChainsAreNotImageGroups(TitleTop, margin, 0, 0);
      InstallSpacing(SpacingChain(TitleTop, margin));
    }

    /** `titlePadding`: the title `padding` in from both sides. */
    method SetTitlePadding(padding: int)
      modifies this`titlePadding, this`log
      requires Valid()
      ensures titlePadding == padding
      ensures log == old(log) + [Entry(Background, HPad(TitleLabel, Space(padding, Required)))]
      ensures Valid()
    {
      titlePadding := padding;
      SetterChainsAreNotImageGroups(TitleTop, 0, 0, padding);
      InstallSpacing(HPad(TitleLabel, Space(padding, Required)));
    }

    /** `messageTopMargin`: the chain again, with `margin` between title and message. */
    method SetMessageTopMargin(margin: int)
      modifies this`messageTopMargin, this`log
      requires Valid()
      ensures messageTopMargin == margin
      ensures log == old(log) + [Entry(Background, SpacingChain(MessageTop, margin))]
      ensures Valid()
    {
      messageTopMargin := margin;
      SetterChainsAreNotImageGroups(MessageTop, margin, 0, 0);
      InstallSpacing(SpacingChain(MessageTop, margin));
    }

    /** `messagePadding`: the message `padding` in from both sides. */
    method SetMessagePadding(padding: int)
      modifies this`messagePadding, this`log
      requires Valid()
      ensures messagePadding == padding
      ensures log == old(log) + [Entry(Background, HPad(MessageText, Space(padding, Required)))]
      ensures Valid()
    {
      messagePadding := padding;
      SetterChainsAreNotImageGroups(MessageTop, 0, 0, padding);
      InstallSpacing(HPad(MessageText, Space(padding, Required)));
    }

    /** `messageHeight`: the message scrolls, and the chain again with the
        message `height` high. */
    method SetMessageHeight(height: int)
      modifies this`messageHeight, this`messageScrollEnabled, this`log
      requires Valid()
      ensures messageHeight == height && messageScrollEnabled
      ensures log == old(log) + [Entry(Background, MessageHeightChain(height))]
      ensures Valid()
    {
      messageHeight := height;
      messageScrollEnabled := true;
      SetterChainsAreNotImageGroups(TitleTop, 0, height, 0);
      InstallSpacing(MessageHeightChain(height));
    }

    /** `contentViewTopMargin`: the chain again, with `margin` above the content slot. */
    method SetContentViewTopMargin(margin: int)
      modifies this`contentViewTopMargin, this`log
      requires Valid()
      ensures contentViewTopMargin == margin
      ensures log == old(log) + [Entry(Background, SpacingChain(ContentTop, margin))]
      ensures Valid()
    {
      contentViewTopMargin := margin;
      SetterChainsAreNotImageGroups(ContentTop, margin, 0, 0);
      InstallSpacing(SpacingChain(ContentTop, margin));
    }

    /** `customViewTopMargin`: the chain again, with `margin` above the custom slot. */
    method SetCustomViewTopMargin(margin: int)
      modifies this`customViewTopMargin, this`log
      requires Valid()
      ensures customViewTopMargin == margin
      ensures log == old(log) + [Entry(Background, SpacingChain(CustomTop, margin))]
      ensures Valid()
    {
      customViewTopMargin := margin;
      SetterChainsAreNotImageGroups(CustomTop, margin, 0, 0);
      InstallSpacing(SpacingChain(CustomTop, margin));
    }

    /** `actionViewTopMargin`: the chain again, with `margin` above the action area. */
    method SetActionViewTopMargin(margin: int)
      modifies this`actionViewTopMargin, this`log
      requires Valid()
      ensures actionViewTopMargin == margin
      ensures log == old(log) + [Entry(Background, SpacingChain(ActionTop, margin))]
      ensures Valid()
    {
      actionViewTopMargin := margin;
      SetterChainsAreNotImageGroups(ActionTop, margin, 0, 0);
      InstallSpacing(SpacingChain(ActionTop, margin));
    }

    /** `actionViewBottomMargin`: the chain again, with `margin` below the action area. */
    method SetActionViewBottomMargin(margin: int)
      modifies this`actionViewBottomMargin, this`log
      requires Valid()
      ensures actionViewBottomMargin == margin
      ensures log == old(log) + [Entry(Background, BottomMarginChain(margin))]
      ensures Valid()
    {
      actionViewBottomMargin := margin;
      SetterChainsAreNotImageGroups(TitleTop, margin, 0, 0);
      InstallSpacing(BottomMarginChain(margin));
    }

    // ------------------------------------------------------------- actions

    /** `actionList`: setting the list lays the buttons out at once. */
    method SetActionList(list: Option<seq<ClientView>>)
      modifies this`actionList, this`tree, this`log, this`lines
      requires Valid()
      ensures actionList == list
      ensures State() == AssignActions(old(State()), Config(), list)
      ensures Valid()
    {
      actionList := list;
      SetActionButtons(list);
    }

    /** `setActionButtons`: nothing for a missing list; otherwise every listed
        button leaves its superview, an empty list also empties the action
        container and re-chains the card, and the style method runs. */
    method SetActionButtons(buttons: Option<seq<ClientView>>)
      modifies this`tree, this`log, this`lines
      requires Valid()
      ensures State() == AssignActions(old(State()), Config(), buttons)
      ensures Valid()
    {
      if buttons.None? {
        return;
      }
      ghost var s0, cfg := State(), Config();
      ghost var cv, cu, ig := contentView, customView, imageGroup;
      var btns := buttons.value;
      ClearActionArea(btns);
      ghost var s1 := State();
      ArrangeActions(btns, cfg);
      ActionsAssignedValid(s0, s1, State(), cfg, btns, cv, cu, ig);
    }

    /** The second half of `setActionButtons`: the style method of the card's style. */
    method ArrangeActions(btns: seq<ClientView>, ghost cfg: ActionConfig)
      modifies this`tree, this`log, this`lines
      requires cfg == Config()
      ensures State() == Arranged(old(State()), cfg, btns)
    {
      if alertStyle == Apple {
        SetAppleStyleActions(btns);
      } else {
        SetCustomStyleActions(btns);
      }
    }

    /** The first half of `setActionButtons`: the buttons leave their superviews;
        for an empty list every view in the action container leaves it too, the
        action container is pinned edge to edge and the card is re-chained. */
    method ClearActionArea(btns: seq<ClientView>)
      modifies this`tree, this`log
      ensures State() == Cleared(old(State()), btns)
    {
      DetachAll(btns);
      if |btns| == 0 {
        var items := tree.action;
        DetachAll(items);
        Install(Background, HPad(ActionContainer, Flush));
        Install(Background, EmptyActionsChain());
      }
    }

    /** `for v in vs { v.removeFromSuperview() }`. */
    method DetachAll(vs: seq<View>)
      modifies this`tree
      ensures tree == DetachedAll(old(tree), vs)
    {
      ghost var t0 := tree;
      for i := 0 to |vs|
        invariant tree == DetachedAll(t0, vs[..i])
      {
        PrefixSnoc(vs, i);
        DetachedAllSnoc(t0, vs[..i], vs[i]);
        RemoveFromSuperview(vs[i]);
      }
      PrefixWhole(vs);
    }

    /** `actionContainerView.addSubview(v)`, tracking the views added so far. */
    method AddActionSubview(ghost t0: Hierarchy, ghost placed: seq<View>, v: View) returns (ghost placed': seq<View>)
      modifies this`tree
      requires tree == AddedAll(t0, ActionBox, placed)
      ensures placed' == placed + [v] && tree == AddedAll(t0, ActionBox, placed')
    {
      AddedAllSnoc(t0, ActionBox, placed, v);
      AddSubview(ActionBox, v);
      placed' := placed + [v];
    }

    /** `actionContainerView.addConstraint(c)`. */
    method AddActionConstraint(c: Constraint)
      modifies this`log
      ensures log == old(log) + [InAction(c)]
    {
      Install(ActionContainer, c);
    }

    /** `setAppleStyleActions`: two side-by-side buttons under a line and split by
        one, a single full-width button under a line, or a stack of full-width
        buttons each under its own line. */
    method SetAppleStyleActions(actions: seq<ClientView>)
      modifies this`tree, this`log, this`lines
      ensures State() == Arranged(old(State()), ActionConfig(Apple, actionArrangementMode, actionHeight, actionPadding, actionMargin), actions)
    {
      ghost var cfg := ActionConfig(Apple, actionArrangementMode, actionHeight, actionPadding, actionMargin);
      var h := actionHeight;
      if |actions| == 2 && actionArrangementMode == Horizontal {
        AppleActionPair(actions, h, cfg);
      } else if |actions| == 1 {
        AppleActionSingle(actions, h, cfg);
      } else {
        AppleActionStack(actions, h, cfg);
      }
    }

    /** The two-button branch of `setAppleStyleActions`. */
    method AppleActionPair(actions: seq<ClientView>, h: int, ghost cfg: ActionConfig)
      modifies this`tree, this`log, this`lines
      requires |actions| == 2 && cfg == ActionConfig(Apple, Horizontal, h, cfg.padding, cfg.margin)
      ensures State() == Arranged(old(State()), cfg, actions)
    {
      var first, last := actions[0], actions[1];
      ghost var s0, t0 := State(), tree;
      var horizontalLine, placed := ApplePairTop(first, last);
      ghost var l1 := log;
      var verticalLine := NewLine();
      placed := AddActionSubview(t0, placed, verticalLine);
      AddActionConstraint(Pin(verticalLine, CenterX, ActionContainer));
      AddActionConstraint(Chain(H, Some(Flush), [Item(first, None), Item(verticalLine, Some(1)), Item(last, None)], [Flush, Flush], Some(Flush), true));
      AddActionConstraint(UnderLine(horizontalLine, first, h));
      AddActionConstraint(UnderLine(horizontalLine, verticalLine, h));
      AddActionConstraint(UnderLine(horizontalLine, last, h));
      FourSnocs(horizontalLine, first, last, verticalLine);
      ApplePairArranged(s0, State(), cfg, actions, l1, horizontalLine, verticalLine);
    }

    /** The first half of the two-button branch: the top separator with its pins,
        then both buttons, of equal width. */
    method ApplePairTop(first: View, last: View) returns (horizontalLine: View, ghost placed: seq<View>)
      modifies this`tree, this`log, this`lines
      ensures horizontalLine == Line(old(lines)) && lines == old(lines) + 1
      ensures placed == [horizontalLine, first, last] && tree == AddedAll(old(tree), ActionBox, placed)
      ensures log == old(log) + TopLinePins(horizontalLine) + [InAction(Pin(first, Width, last))]
    {
      ghost var t0, l0 := tree, log;
      placed := [];
      horizontalLine := NewLine();
      placed := AddActionSubview(t0, placed, horizontalLine);
      AddActionConstraint(Pin(horizontalLine, Top, ActionContainer));
      AddActionConstraint(Pin(horizontalLine, Left, ActionContainer));
      AddActionConstraint(Pin(horizontalLine, Width, ActionContainer));
      placed := AddActionSubview(t0, placed, first);
      placed := AddActionSubview(t0, placed, last);
      AddActionConstraint(Pin(first, Width, last));
      ThreeSnocs(horizontalLine, first, last);
      TopPinsLogged(l0, log, horizontalLine, first, last);
    }

    /** The one-button branch of `setAppleStyleActions`. */
    method AppleActionSingle(actions: seq<ClientView>, h: int, ghost cfg: ActionConfig)
      modifies this`tree, this`log, this`lines
      requires |actions| == 1 && cfg.style == Apple && cfg.height == h
      ensures State() == Arranged(old(State()), cfg, actions)
    {
      var the := actions[0];
      ghost var t0, l0 := tree, log;
      ghost var placed: seq<View> := [];
      var horizontalLine := NewLine();
      placed := AddActionSubview(t0, placed, horizontalLine);
      AddActionConstraint(Pin(horizontalLine, Top, ActionContainer));
      AddActionConstraint(Pin(horizontalLine, Left, ActionContainer));
      AddActionConstraint(Pin(horizontalLine, Width, ActionContainer));
      placed := AddActionSubview(t0, placed, the);
      AddActionConstraint(HPad(the, Flush));
      AddActionConstraint(UnderLine(horizontalLine, the, h));
      TwoSnocs(horizontalLine, the);
      AppleSingleLogged(l0, log, h, the, horizontalLine);
      AppleSingleForm(cfg, actions, old(lines));
    }

    /** The loop of `setAppleStyleActions`: each button full width, then its
        separator above it. */
    method AppleActionStack(actions: seq<ClientView>, h: int, ghost cfg: ActionConfig)
      modifies this`tree, this`log, this`lines
      requires cfg.style == Apple && cfg.height == h && !(|actions| == 2 && cfg.arrangement == Horizontal) && |actions| != 1
      ensures State() == Arranged(old(State()), cfg, actions)
    {
      ghost var t0, l0, n0 := tree, log, lines;
      ghost var placed: seq<View> := [];
      for i := 0 to |actions|
        invariant lines == n0 + i
        invariant placed == AppleStackPlaced(actions, n0, i)
        invariant tree == AddedAll(t0, ActionBox, placed)
        invariant log == l0 + AppleStackEntries(actions, h, n0, i)
      {
        var line := NewLine();
        placed := AppleStackPass(actions, h, i, line, t0, l0, n0, placed);
      }
      AppleStackForm(cfg, actions, n0);
    }

    /** Pass `i` of the apple loop: the button, full width and `h` high, then its
        separator `line`, full width, between the previous button (or the top edge) and
        this one, and for the last button the pin to the bottom edge. */
    method AppleStackPass(actions: seq<ClientView>, h: int, i: nat, line: View, ghost t0: Hierarchy, ghost l0: seq<Entry>, ghost n0: nat,
                          ghost placed: seq<View>) returns (ghost placed': seq<View>)
      modifies this`tree, this`log
      requires i < |actions| && line == Line(n0 + i)
      requires placed == AppleStackPlaced(actions, n0, i) && tree == AddedAll(t0, ActionBox, placed)
      requires log == l0 + AppleStackEntries(actions, h, n0, i)
      ensures placed' == AppleStackPlaced(actions, n0, i + 1) && tree == AddedAll(t0, ActionBox, placed')
      ensures log == l0 + AppleStackEntries(actions, h, n0, i + 1)
    {
      var actionButton := actions[i];
      ghost var done := log;
      placed' := AddActionSubview(t0, placed, actionButton);
      AddActionConstraint(HPad(actionButton, Flush));
      AddActionConstraint(FixedHeight(actionButton, h));
      placed' := AddActionSubview(t0, placed', line);
      AddActionConstraint(HPad(line, Flush));
      if i == 0 {
        AddActionConstraint(Chain(V, Some(Flush), [Item(line, Some(1)), Item(actionButton, None)], [Flush], None, false));
      } else {
        var previousButton := actions[i - 1];
        AddActionConstraint(Chain(V, None, [Item(previousButton, None), Item(line, Some(1)), Item(actionButton, None)], [Flush, Flush], None, false));
      }
      ghost var core := log;
      if i == |actions| - 1 {
        AddActionConstraint(Chain(V, None, [Item(actionButton, None)], [], Some(Flush), false));
      }
      AppleStepLogged(l0, done, core, log, actions, h, n0, i, line);
      AppleStepPlaced(actions, n0, i, line);
    }

    /** `setCustomStyleActions`: two padded buttons side by side, one padded
        centred button, or a stack of padded buttons `actionMargin` apart. */
    method SetCustomStyleActions(actions: seq<ClientView>)
      modifies this`tree, this`log, this`lines
      ensures State() == Arranged(old(State()), ActionConfig(Custom, actionArrangementMode, actionHeight, actionPadding, actionMargin), actions)
    {
      ghost var cfg := ActionConfig(Custom, actionArrangementMode, actionHeight, actionPadding, actionMargin);
      var h, p, m := actionHeight, actionPadding, actionMargin;
      if |actions| == 2 && actionArrangementMode == Horizontal {
        CustomActionPair(actions, h, p, m, cfg);
      } else if |actions| == 1 {
        CustomActionSingle(actions, h, p, m, cfg);
      } else {
        CustomActionStack(actions, h, p, m, cfg);
      }
    }

    /** The two-button branch of `setCustomStyleActions`. */
    method CustomActionPair(actions: seq<ClientView>, h: int, p: int, m: int, ghost cfg: ActionConfig)
      modifies this`tree, this`log
      requires |actions| == 2 && cfg == ActionConfig(Custom, Horizontal, h, p, m)
      ensures State() == Arranged(old(State()), cfg, actions)
    {
      var first, last := actions[0], actions[1];
      ghost var t0, l0 := tree, log;
      ghost var placed: seq<View> := [];
      placed := AddActionSubview(t0, placed, first);
      placed := AddActionSubview(t0, placed, last);
      AddActionConstraint(Pin(first, Width, last));
      AddActionConstraint(Chain(H, Some(Space(p, Required)), [Item(first, None), Item(last, None)], [Standard], Some(Space(p, Required)), true));
      AddActionConstraint(Chain(V, Some(Space(m, Required)), [Item(first, Some(h))], [], Some(Space(m, Required)), false));
      AddActionConstraint(FixedHeight(last, h));
      TwoSnocs(first, last);
      CustomPairLogged(l0, log, h, p, m, first, last);
      CustomPairForm(cfg, actions, lines);
    }

    /** The one-button branch of `setCustomStyleActions`. */
    method CustomActionSingle(actions: seq<ClientView>, h: int, p: int, m: int, ghost cfg: ActionConfig)
      modifies this`tree, this`log
      requires |actions| == 1 && cfg == ActionConfig(Custom, cfg.arrangement, h, p, m)
      ensures State() == Arranged(old(State()), cfg, actions)
    {
      var the := actions[0];
      ghost var t0, l0 := tree, log;
      ghost var placed: seq<View> := [];
      placed := AddActionSubview(t0, placed, the);
      AddActionConstraint(Pin(the, CenterY, ActionContainer));
      AddActionConstraint(Pin(the, CenterX, ActionContainer));
      AddActionConstraint(HPad(the, Space(p, Required)));
      AddActionConstraint(Chain(V, Some(Space(m, Required)), [Item(the, Some(h))], [], Some(Space(m, Required)), false));
      assert placed == [the];
      CustomSingleLogged(l0, log, h, p, m, the);
      CustomSingleForm(cfg, actions, lines);
    }

    /** The loop of `setCustomStyleActions`: each button padded, `actionHeight`
        high and `actionMargin` below the one before. */
    method CustomActionStack(actions: seq<ClientView>, h: int, p: int, m: int, ghost cfg: ActionConfig)
      modifies this`tree, this`log
      requires cfg == ActionConfig(Custom, cfg.arrangement, h, p, m) && !(|actions| == 2 && cfg.arrangement == Horizontal) && |actions| != 1
      ensures State() == Arranged(old(State()), cfg, actions)
    {
      ghost var t0, l0 := tree, log;
      ghost var placed: seq<View> := [];
      for i := 0 to |actions|
        invariant placed == actions[..i]
        invariant tree == AddedAll(t0, ActionBox, placed)
        invariant log == l0 + CustomStackEntries(actions, h, p, m, i)
      {
        placed := AddActionSubview(t0, placed, actions[i]);
        CustomStackConstraints(actions, h, p, m, i, l0);
        PrefixSnoc(actions, i);
      }
      PrefixWhole(actions);
      CustomStackForm(cfg, actions, lines);
    }

    /** The constraints pass `i` of the custom loop adds once its button is in the
        action container: the button padded by `p` and `h` high, `m` below the
        previous button (or the top edge), and for the last button `m` above the
        bottom edge. */
    method CustomStackConstraints(actions: seq<ClientView>, h: int, p: int, m: int, i: nat, ghost l0: seq<Entry>)
      modifies this`log
      requires i < |actions| && log == l0 + CustomStackEntries(actions, h, p, m, i)
      ensures log == l0 + CustomStackEntries(actions, h, p, m, i + 1)
    {
      var actionButton := actions[i];
      ghost var done := log;
      AddActionConstraint(HPad(actionButton, Space(p, Required)));
      AddActionConstraint(FixedHeight(actionButton, h));
      if i == 0 {
        AddActionConstraint(Chain(V, Some(Space(m, Required)), [Item(actionButton, None)], [], None, false));
      } else {
        var previousButton := actions[i - 1];
        AddActionConstraint(Chain(V, None, [Item(previousButton, None), Item(actionButton, None)], [Space(m, Required)], None, false));
      }
      ghost var core := log;
      if i == |actions| - 1 {
        AddActionConstraint(Chain(V, None, [Item(actionButton, None)], [], Some(Space(m, Required)), false));
      }
      CustomStepLogged(l0, done, core, log, actions, h, p, m, i);
    }
  }


  // What `Arranged` places, adds and counts for each branch.

  lemma ApplePairForm(cfg: ActionConfig, bs: seq<ClientView>, n0: nat)
    requires cfg.style == Apple && cfg.arrangement == Horizontal && |bs| == 2
    ensures var m := ModeOf(|bs|, cfg.arrangement);
      Fits(m, |bs|) &&
      Placed(cfg.style, m, bs, n0) == [Line(n0), bs[0], bs[1], Line(n0 + 1)] &&
      Emitted(cfg, m, bs, n0) == ApplePairEntries(cfg.height, bs[0], bs[1], Line(n0), Line(n0 + 1)) &&
      NewLines(cfg.style, m, |bs|) == 2
  {
  }

  lemma AppleSingleForm(cfg: ActionConfig, bs: seq<ClientView>, n0: nat)
    requires cfg.style == Apple && |bs| == 1
    ensures var m := ModeOf(|bs|, cfg.arrangement);
      Fits(m, |bs|) &&
      Placed(cfg.style, m, bs, n0) == [Line(n0), bs[0]] &&
      Emitted(cfg, m, bs, n0) == AppleSingleEntries(cfg.height, bs[0], Line(n0)) &&
      NewLines(cfg.style, m, |bs|) == 1
  {
  }

  lemma AppleStackForm(cfg: ActionConfig, bs: seq<ClientView>, n0: nat)
    requires cfg.style == Apple && !(|bs| == 2 && cfg.arrangement == Horizontal) && |bs| != 1
    ensures var m := ModeOf(|bs|, cfg.arrangement);
      Fits(m, |bs|) &&
      Placed(cfg.style, m, bs, n0) == AppleStackPlaced(bs, n0, |bs|) &&
      Emitted(cfg, m, bs, n0) == AppleStackEntries(bs, cfg.height, n0, |bs|) &&
      NewLines(cfg.style, m, |bs|) == |bs|
  {
  }

  lemma CustomPairForm(cfg: ActionConfig, bs: seq<ClientView>, n0: nat)
    requires cfg.style == Custom && cfg.arrangement == Horizontal && |bs| == 2
    ensures var m := ModeOf(|bs|, cfg.arrangement);
      Fits(m, |bs|) &&
      Placed(cfg.style, m, bs, n0) == [bs[0], bs[1]] &&
      Emitted(cfg, m, bs, n0) == CustomPairEntries(cfg.height, cfg.padding, cfg.margin, bs[0], bs[1]) &&
      NewLines(cfg.style, m, |bs|) == 0
  {
    assert bs == [bs[0], bs[1]];
  }

  lemma CustomSingleForm(cfg: ActionConfig, bs: seq<ClientView>, n0: nat)
    requires cfg.style == Custom && |bs| == 1
    ensures var m := ModeOf(|bs|, cfg.arrangement);
      Fits(m, |bs|) &&
      Placed(cfg.style, m, bs, n0) == [bs[0]] &&
      Emitted(cfg, m, bs, n0) == CustomSingleEntries(cfg.height, cfg.padding, cfg.margin, bs[0]) &&
      NewLines(cfg.style, m, |bs|) == 0
  {
    assert bs == [bs[0]];
  }

  lemma CustomStackForm(cfg: ActionConfig, bs: seq<ClientView>, n0: nat)
    requires cfg.style == Custom && !(|bs| == 2 && cfg.arrangement == Horizontal) && |bs| != 1
    ensures var m := ModeOf(|bs|, cfg.arrangement);
      Fits(m, |bs|) &&
      Placed(cfg.style, m, bs, n0) == bs &&
      Emitted(cfg, m, bs, n0) == CustomStackEntries(bs, cfg.height, cfg.padding, cfg.margin, |bs|) &&
      NewLines(cfg.style, m, |bs|) == 0
  {
  }

  // The entries each branch adds, one `addConstraint` at a time, are those the
  // layout functions list.

  /** The steps of the two-button apple branch end where `Arranged` says. */
  lemma ApplePairArranged(s0: ActionState, s1: ActionState, cfg: ActionConfig, bs: seq<ClientView>,
                          l1: seq<Entry>, hline: View, vline: View)
    requires cfg.style == Apple && cfg.arrangement == Horizontal && |bs| == 2
    requires hline == Line(s0.lines) && vline == Line(s0.lines + 1) && s1.lines == s0.lines + 2
    requires s1.tree == AddedAll(s0.tree, ActionBox, [hline, bs[0], bs[1], vline])
    requires l1 == s0.log + TopLinePins(hline) + [InAction(Pin(bs[0], Width, bs[1]))]
    requires s1.log == l1 + [InAction(Pin(vline, CenterX, ActionContainer))]
      + [InAction(Chain(H, Some(Flush), [Item(bs[0], None), Item(vline, Some(1)), Item(bs[1], None)], [Flush, Flush], Some(Flush), true))]
      + [InAction(UnderLine(hline, bs[0], cfg.height))]
      + [InAction(UnderLine(hline, vline, cfg.height))]
      + [InAction(UnderLine(hline, bs[1], cfg.height))]
    ensures s1 == Arranged(s0, cfg, bs)
  {
    ApplePairLogged(s0.log, l1, s1.log, cfg.height, bs[0], bs[1], hline, vline);
    ApplePairForm(cfg, bs, s0.lines);
  }

  lemma ApplePairLogged(l0: seq<Entry>, l1: seq<Entry>, log: seq<Entry>, h: int, first: View, last: View, hline: View, vline: View)
    requires l1 == l0 + TopLinePins(hline) + [InAction(Pin(first, Width, last))]
    requires log == l1 + [InAction(Pin(vline, CenterX, ActionContainer))]
      + [InAction(Chain(H, Some(Flush), [Item(first, None), Item(vline, Some(1)), Item(last, None)], [Flush, Flush], Some(Flush), true))]
      + [InAction(UnderLine(hline, first, h))]
      + [InAction(UnderLine(hline, vline, h))]
      + [InAction(UnderLine(hline, last, h))]
    ensures log == l0 + ApplePairEntries(h, first, last, hline, vline)
  {
  }

  lemma TopPinsLogged(l0: seq<Entry>, log: seq<Entry>, hline: View, first: View, last: View)
    requires log == l0 + [InAction(Pin(hline, Top, ActionContainer))]
      + [InAction(Pin(hline, Left, ActionContainer))]
      + [InAction(Pin(hline, Width, ActionContainer))]
      + [InAction(Pin(first, Width, last))]
    ensures log == l0 + TopLinePins(hline) + [InAction(Pin(first, Width, last))]
  {
  }

  lemma AppleSingleLogged(l0: seq<Entry>, log: seq<Entry>, h: int, the: View, hline: View)
    requires log == l0 + [InAction(Pin(hline, Top, ActionContainer))]
      + [InAction(Pin(hline, Left, ActionContainer))]
      + [InAction(Pin(hline, Width, ActionContainer))]
      + [InAction(HPad(the, Flush))]
      + [InAction(UnderLine(hline, the, h))]
    ensures log == l0 + AppleSingleEntries(h, the, hline)
  {
  }

  /** One pass of the apple loop extends the log by that pass's step. */
  lemma AppleStepLogged(l0: seq<Entry>, done: seq<Entry>, core: seq<Entry>, log: seq<Entry>,
                        bs: seq<ClientView>, h: int, n0: nat, i: nat, line: View)
    requires i < |bs| && done == l0 + AppleStackEntries(bs, h, n0, i) && line == Line(n0 + i)
    requires core == done + [InAction(HPad(bs[i], Flush))]
      + [InAction(FixedHeight(bs[i], h))]
      + [InAction(HPad(line, Flush))]
      + [InAction(SeparatorChain(bs, line, i))]
    requires log == if i == |bs| - 1 then core + [InAction(Chain(V, None, [Item(bs[i], None)], [], Some(Flush), false))] else core
    ensures log == l0 + AppleStackEntries(bs, h, n0, i + 1)
  {
  }

  /** One pass of the apple loop adds its button and then its separator. */
  lemma AppleStepPlaced(bs: seq<ClientView>, n0: nat, i: nat, line: View)
    requires i < |bs| && line == Line(n0 + i)
    ensures AppleStackPlaced(bs, n0, i + 1) == AppleStackPlaced(bs, n0, i) + [bs[i]] + [line]
  {
  }

  lemma CustomPairLogged(l0: seq<Entry>, log: seq<Entry>, h: int, p: int, m: int, first: View, last: View)
    requires log == l0 + [InAction(Pin(first, Width, last))]
      + [InAction(Chain(H, Some(Space(p, Required)), [Item(first, None), Item(last, None)], [Standard], Some(Space(p, Required)), true))]
      + [InAction(Chain(V, Some(Space(m, Required)), [Item(first, Some(h))], [], Some(Space(m, Required)), false))]
      + [InAction(FixedHeight(last, h))]
    ensures log == l0 + CustomPairEntries(h, p, m, first, last)
  {
  }

  lemma CustomSingleLogged(l0: seq<Entry>, log: seq<Entry>, h: int, p: int, m: int, the: View)
    requires log == l0 + [InAction(Pin(the, CenterY, ActionContainer))]
      + [InAction(Pin(the, CenterX, ActionContainer))]
      + [InAction(HPad(the, Space(p, Required)))]
      + [InAction(Chain(V, Some(Space(m, Required)), [Item(the, Some(h))], [], Some(Space(m, Required)), false))]
    ensures log == l0 + CustomSingleEntries(h, p, m, the)
  {
  }

  /** One pass of the custom loop extends the log by that pass's step. */
  lemma CustomStepLogged(l0: seq<Entry>, done: seq<Entry>, core: seq<Entry>, log: seq<Entry>,
                         bs: seq<ClientView>, h: int, p: int, m: int, i: nat)
    requires i < |bs| && done == l0 + CustomStackEntries(bs, h, p, m, i)
    requires core == done + [InAction(HPad(bs[i], Space(p, Required)))]
      + [InAction(FixedHeight(bs[i], h))]
      + [InAction(MarginAbove(bs, m, i))]
    requires log == if i == |bs| - 1 then core + [InAction(Chain(V, None, [Item(bs[i], None)], [], Some(Space(m, Required)), false))] else core
    ensures log == l0 + CustomStackEntries(bs, h, p, m, i + 1)
  {
  }

  // Proof helpers: sequence algebra the verifier needs spelled out. They
  // model nothing of the card.

  /** Three views appended one at a time to an empty list. */
  lemma ThreeSnocs(a: View, b: View, c: View)
    ensures [] + [a] + [b] + [c] == [a, b, c]
  {
  }

  /** A fourth view appended to a list of three. */
  lemma FourSnocs(a: View, b: View, c: View, d: View)
    ensures [a, b, c] + [d] == [a, b, c, d]
  {
  }

  /** Two views appended one at a time to an empty list. */
  lemma TwoSnocs(a: View, b: View)
    ensures [] + [a] + [b] == [a, b]
  {
  }
}
