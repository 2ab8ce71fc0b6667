# AEBaseAlertView, modelled in Dafny

`AEBaseAlertView` is the card at the heart of the AEAlertView library: a
rounded background view that stacks, top to bottom, an optional background
image, a title label, a message text view, two slot containers for
application-supplied views ("content" and "custom"), and an action container
holding the buttons. The card is laid out with Auto Layout. Building the card
installs a fixed skeleton of constraints. Every spacing property appends a new
vertical (or horizontal) chain when it is assigned. Assigning the action list
removes the listed buttons from wherever they are and then lays them out in
the style of the card:

- `apple` style: flush, full-width buttons with 1-point separator lines;
- `custom` style: padded buttons with margins between them.

Each style has three branches: two buttons side by side, a single button, or
a vertical stack.

The model is a class, `AlertView.BaseAlertView` in `alert_view.dfy`, whose
fields are:

- the card's public properties;
- the two slot fields;
- the parts of UIKit state the card changes:
  - the subview lists of the background view and its three containers (`tree`);
  - the constraints installed so far, in order, each with the view that owns it (`log`);
  - the position of the background-image group in that log (`imageGroup`);
  - the number of separator views created (`lines`).

Every method runs the steps of its Swift counterpart in the same order, one
`addSubview`, `removeFromSuperview` or `addConstraint(s)` at a time. Each is
proved to end in the state that a pure function of the old state describes:

- `SkeletonLog`, `SpacingChain` and `ImageGroup` in `card_skeleton.dfy`;
- `Cleared`, `Arranged` and `AssignActions` in `action_layout.dfy`.

Those functions are then the subject of the lemmas:

- `action_properties.dfy`: what each branch places and installs — heights,
  separators, margins, the equal-width pin, the bottom pin;
- `action_assignment.dfy`: what assigning a list does to the whole tree;
- `card_skeleton.dfy`: how each setter's chain relates to the default chain.

The class keeps an invariant, `Valid()` (`CardState.CardValid`), through
every public operation:

- the card's own subviews stay in place;
- no view has two superviews;
- every separator was created by the card;
- each slot container holds nothing or exactly the view its field names;
- `imageGroup` points at the one background-image group in the log, or there is none.

Module layout:

- `view_tree.dfy`: views, the subview tree, `addSubview` and `removeFromSuperview` semantics;
- `constraints.dfy`: constraints as visual-format chains and single relations, counting by kind;
- `card_skeleton.dfy`: the skeleton and the setters' chains;
- `action_layout.dfy`: the button layout as functions;
- `action_properties.dfy`: properties of those functions;
- `action_assignment.dfy`: assigning the action list;
- `card_state.dfy`: the card's invariant;
- `alert_view.dfy`: the class.

Behaviour of the code worth knowing, each with the lemma or contract that states it:

- Reassigning a non-empty action list removes only the listed buttons, so the
  separator lines of the previous layout stay in the action container.
  `ActionAssignment.ReassigningKeepsSeparators` shows two separators after the
  same single button is assigned twice.
- The chain an empty action list installs orders the custom slot above the
  content slot (`CardSkeleton.EmptyActionsOrderSwapped`). The skeleton and
  every setter order content above custom.
- The spacing setters never remove the chain they supersede; each call
  appends one more (`log == old(log) + [...]`).
- The apple stack creates one separator per button, including one above the
  first (`ActionProperties.AppleStackLines`).

## Model

| member | source | states |
|---|---|---|
| AlertView.BaseAlertView.constructor | AEAlertViewDemo/Pods/AEAlertView/AEAlertView/Classes/AEBaseAlertView.swift:109-112 | every property takes its declared default (action height 40, padding 8, margin 8, horizontal, apple, width the screen less 48); the tree is the card's skeleton with empty containers; the log is exactly the skeleton's constraints; no image group; the invariant holds |
| AlertView.BaseAlertView.ConfigureCard | AEAlertViewDemo/Pods/AEAlertView/AEAlertView/Classes/AEBaseAlertView.swift:129-147 | from an empty card, the four host constraints, then the image and the regions, leave the tree and log of the finished skeleton |
| AlertView.BaseAlertView.InitBackgroundImage | AEAlertViewDemo/Pods/AEAlertView/AEAlertView/Classes/AEBaseAlertView.swift:150-158 | the image view becomes the background view's first child and is pinned flush to both sides |
| AlertView.BaseAlertView.InitSubviews | AEAlertViewDemo/Pods/AEAlertView/AEAlertView/Classes/AEBaseAlertView.swift:160-211 | the five regions join the background view in order, each with its horizontal pad (51 and 24 at priority 750 for title and message, flush for the containers), then the default vertical chain |
| AlertView.BaseAlertView.AddRegion | AEAlertViewDemo/Pods/AEAlertView/AEAlertView/Classes/AEBaseAlertView.swift:167-170 | a view not yet in the tree is appended to the background view and gets one horizontal pad |
| AlertView.BaseAlertView.SetContent | AEAlertViewDemo/Pods/AEAlertView/AEAlertView/Classes/AEBaseAlertView.swift:216-233 | the previous content view leaves its superview; the new view is the content container's only child, the field names it, its four sizing and centring constraints go to the container, and the invariant holds |
| AlertView.BaseAlertView.SetCustom | AEAlertViewDemo/Pods/AEAlertView/AEAlertView/Classes/AEBaseAlertView.swift:235-252 | the same for the custom container and the custom field |
| AlertView.BaseAlertView.InstallSlotConstraints | AEAlertViewDemo/Pods/AEAlertView/AEAlertView/Classes/AEBaseAlertView.swift:224-232 | the slot's width chain, edge-to-edge height chain and its two centring pins, in that order, all owned by the slot container |
| AlertView.BaseAlertView.RemoveConstraintsAt | AEAlertViewDemo/Pods/AEAlertView/AEAlertView/Classes/AEBaseAlertView.swift:259-261 | entry `i`, where the image group sits, leaves the log, and every other entry keeps its order |
| AlertView.BaseAlertView.SetBackgroundImageBottomMargin | AEAlertViewDemo/Pods/AEAlertView/AEAlertView/Classes/AEBaseAlertView.swift:257-267 | the property is set; without an image nothing else changes; with one the old group goes, a new group sized by `backgroundImageHeight` (the image's own height when that is 0) ending `margin` above the bottom is installed last and tracked, and it is the only group in the log |
| AlertView.BaseAlertView.SetBackgroundImageHeight | AEAlertViewDemo/Pods/AEAlertView/AEAlertView/Classes/AEBaseAlertView.swift:268-278 | the same, with the new height and the current bottom margin |
| AlertView.BaseAlertView.ReplaceImageGroup | AEAlertViewDemo/Pods/AEAlertView/AEAlertView/Classes/AEBaseAlertView.swift:258-266 | removing the tracked group, if any, and appending a new one leaves exactly one image group, at the end of the log, and keeps the invariant |
| AlertView.BaseAlertView.InstallSpacing | AEAlertViewDemo/Pods/AEAlertView/AEAlertView/Classes/AEBaseAlertView.swift:280-331 | a spacing chain is appended to the background view and the image group stays tracked where it was |
| AlertView.BaseAlertView.SetTitleTopMargin | AEAlertViewDemo/Pods/AEAlertView/AEAlertView/Classes/AEBaseAlertView.swift:280-285 | appends the default chain with the gap above the title replaced by `margin`, keeping the invariant |
| AlertView.BaseAlertView.SetTitlePadding | AEAlertViewDemo/Pods/AEAlertView/AEAlertView/Classes/AEBaseAlertView.swift:286-290 | appends a required pad of `padding` on both sides of the title |
| AlertView.BaseAlertView.SetMessageTopMargin | AEAlertViewDemo/Pods/AEAlertView/AEAlertView/Classes/AEBaseAlertView.swift:291-296 | appends the default chain with `margin` between title and message |
| AlertView.BaseAlertView.SetMessagePadding | AEAlertViewDemo/Pods/AEAlertView/AEAlertView/Classes/AEBaseAlertView.swift:297-301 | appends a required pad of `padding` on both sides of the message |
| AlertView.BaseAlertView.SetMessageHeight | AEAlertViewDemo/Pods/AEAlertView/AEAlertView/Classes/AEBaseAlertView.swift:302-307 | the message becomes scrollable and the default chain is appended with the message `height` high |
| AlertView.BaseAlertView.SetContentViewTopMargin | AEAlertViewDemo/Pods/AEAlertView/AEAlertView/Classes/AEBaseAlertView.swift:308-313 | appends the default chain with `margin` above the content slot |
| AlertView.BaseAlertView.SetCustomViewTopMargin | AEAlertViewDemo/Pods/AEAlertView/AEAlertView/Classes/AEBaseAlertView.swift:314-319 | appends the default chain with `margin` above the custom slot |
| AlertView.BaseAlertView.SetActionViewTopMargin | AEAlertViewDemo/Pods/AEAlertView/AEAlertView/Classes/AEBaseAlertView.swift:320-325 | appends the default chain with `margin` above the action container |
| AlertView.BaseAlertView.SetActionViewBottomMargin | AEAlertViewDemo/Pods/AEAlertView/AEAlertView/Classes/AEBaseAlertView.swift:326-331 | appends the default chain with `margin` from the action container to the bottom edge |
| AlertView.BaseAlertView.SetActionList | AEAlertViewDemo/Pods/AEAlertView/AEAlertView/Classes/AEBaseAlertView.swift:54-58 | storing the list lays it out at once, as `AssignActions` describes, keeping the invariant |
| AlertView.BaseAlertView.SetActionButtons | AEAlertViewDemo/Pods/AEAlertView/AEAlertView/Classes/AEBaseAlertView.swift:336-357 | a missing list changes nothing; otherwise the card ends in `Arranged(Cleared(s, bs))` for the card's own style and properties, and the invariant holds |
| AlertView.BaseAlertView.ClearActionArea | AEAlertViewDemo/Pods/AEAlertView/AEAlertView/Classes/AEBaseAlertView.swift:337-351 | every listed button leaves its superview; for an empty list the action container is emptied and the pad and swapped chain are appended |
| AlertView.BaseAlertView.ArrangeActions | AEAlertViewDemo/Pods/AEAlertView/AEAlertView/Classes/AEBaseAlertView.swift:352-356 | the style method the card's style selects ends in `Arranged` for the card's properties |
| AlertView.BaseAlertView.DetachAll | AEAlertViewDemo/Pods/AEAlertView/AEAlertView/Classes/AEBaseAlertView.swift:338-340 | removing each view in turn ends in `DetachedAll` of the list |
| AlertView.BaseAlertView.SetAppleStyleActions | AEAlertViewDemo/Pods/AEAlertView/AEAlertView/Classes/AEBaseAlertView.swift:359-457 | the branch for two horizontal buttons, one button, or any other count ends in `Arranged` for apple style |
| AlertView.BaseAlertView.AppleActionPair | AEAlertViewDemo/Pods/AEAlertView/AEAlertView/Classes/AEBaseAlertView.swift:362-394 | two new separators and both buttons are placed, in the order line, first, last, line; the nine constraints of the row are installed in source order |
| AlertView.BaseAlertView.ApplePairTop | AEAlertViewDemo/Pods/AEAlertView/AEAlertView/Classes/AEBaseAlertView.swift:368-379 | a new separator pinned to the container's top, left and width, then both buttons, made equal in width |
| AlertView.BaseAlertView.AppleActionSingle | AEAlertViewDemo/Pods/AEAlertView/AEAlertView/Classes/AEBaseAlertView.swift:396-413 | one new separator over the button, the button full width and `actionHeight` high under it |
| AlertView.BaseAlertView.AppleActionStack | AEAlertViewDemo/Pods/AEAlertView/AEAlertView/Classes/AEBaseAlertView.swift:415-455 | the loop appends each button, followed by its own new separator, after the container's current children, and the log holds every pass's constraints in order |
| AlertView.BaseAlertView.AppleStackPass | AEAlertViewDemo/Pods/AEAlertView/AEAlertView/Classes/AEBaseAlertView.swift:417-454 | one pass adds button `i` and separator `i` and extends the log by exactly that pass's step, the bottom pin only for the last button |
| AlertView.BaseAlertView.SetCustomStyleActions | AEAlertViewDemo/Pods/AEAlertView/AEAlertView/Classes/AEBaseAlertView.swift:459-512 | the branch selected by count and arrangement ends in `Arranged` for custom style, with no separators created |
| AlertView.BaseAlertView.CustomActionPair | AEAlertViewDemo/Pods/AEAlertView/AEAlertView/Classes/AEBaseAlertView.swift:463-478 | both buttons, equal in width, `padding` from the sides, `margin` above and below the first, both `actionHeight` high |
| AlertView.BaseAlertView.CustomActionSingle | AEAlertViewDemo/Pods/AEAlertView/AEAlertView/Classes/AEBaseAlertView.swift:479-490 | the button centred both ways, `padding` from the sides, `margin` above and below |
| AlertView.BaseAlertView.CustomActionStack | AEAlertViewDemo/Pods/AEAlertView/AEAlertView/Classes/AEBaseAlertView.swift:491-510 | the loop appends the buttons in order after the container's current children, and the log holds every pass's constraints |
| AlertView.BaseAlertView.CustomStackConstraints | AEAlertViewDemo/Pods/AEAlertView/AEAlertView/Classes/AEBaseAlertView.swift:497-509 | pass `i` extends the log by exactly its step: pad, height, margin above, and the bottom margin for the last button |
| ActionProperties.ModeSelection | AEAlertViewDemo/Pods/AEAlertView/AEAlertView/Classes/AEBaseAlertView.swift:362-415 | the pair branch is taken exactly for two horizontal buttons, the single branch exactly for one button, and the loop for every other count, both directions |
| ActionProperties.AppleStackLines | AEAlertViewDemo/Pods/AEAlertView/AEAlertView/Classes/AEBaseAlertView.swift:416-450 | in the apple loop every button is given the action height and every button has its own separator chain above it |
| ActionProperties.AppleStackBottom | AEAlertViewDemo/Pods/AEAlertView/AEAlertView/Classes/AEBaseAlertView.swift:451-454 | the apple loop installs exactly one chain to the bottom edge for a non-empty list and none for an empty one |
| ActionProperties.AppleStackBottomIsLast | AEAlertViewDemo/Pods/AEAlertView/AEAlertView/Classes/AEBaseAlertView.swift:451-454 | the chain to the bottom edge is that of the last button |
| ActionProperties.AppleStackShaped | AEAlertViewDemo/Pods/AEAlertView/AEAlertView/Classes/AEBaseAlertView.swift:416-455 | every apple-loop constraint belongs to the action container, is flush, and sizes buttons only by the action height |
| ActionProperties.CustomStackShaped | AEAlertViewDemo/Pods/AEAlertView/AEAlertView/Classes/AEBaseAlertView.swift:492-510 | every custom-loop constraint belongs to the action container and uses only `padding` sideways and `margin` vertically |
| ActionProperties.CustomStackHeights | AEAlertViewDemo/Pods/AEAlertView/AEAlertView/Classes/AEBaseAlertView.swift:499 | every button of the custom loop is given the action height |
| ActionProperties.CustomStackMargins | AEAlertViewDemo/Pods/AEAlertView/AEAlertView/Classes/AEBaseAlertView.swift:501-509 | for `n > 0` buttons the custom loop has one top margin, `n - 1` margins between buttons and one bottom margin |
| ActionProperties.PlacedFacts | AEAlertViewDemo/Pods/AEAlertView/AEAlertView/Classes/AEBaseAlertView.swift:359-512 | every branch places every button, only buttons and separators that are new, as many separators as it creates, and no view twice when the buttons are distinct |
| ActionProperties.EmittedShape | AEAlertViewDemo/Pods/AEAlertView/AEAlertView/Classes/AEBaseAlertView.swift:359-512 | every constraint of either style belongs to the action container, flush in apple style, padded and spaced by the properties in custom style |
| ActionProperties.EmittedNoImageGroup | AEAlertViewDemo/Pods/AEAlertView/AEAlertView/Classes/AEBaseAlertView.swift:359-512 | the button layout never installs an image group |
| ActionProperties.EqualWidthCount | AEAlertViewDemo/Pods/AEAlertView/AEAlertView/Classes/AEBaseAlertView.swift:379 | exactly one equal-width pin is installed in the pair branch of either style and none in any other branch |
| ActionProperties.ButtonHeights | AEAlertViewDemo/Pods/AEAlertView/AEAlertView/Classes/AEBaseAlertView.swift:359-512 | in every branch of both styles every listed button gets a vertical chain fixing it at the action height |
| ActionProperties.CustomFirstButtonMargins | AEAlertViewDemo/Pods/AEAlertView/AEAlertView/Classes/AEBaseAlertView.swift:475 | in the custom pair and single branches the first button's chain has `margin` above and below it |
| ActionAssignment.ClearedFacts | AEAlertViewDemo/Pods/AEAlertView/AEAlertView/Classes/AEBaseAlertView.swift:337-351 | clearing keeps the tree sound, only removes views, removes every listed button, and appends nothing for a non-empty list |
| ActionAssignment.ArrangedFacts | AEAlertViewDemo/Pods/AEAlertView/AEAlertView/Classes/AEBaseAlertView.swift:352-356 | arranging keeps the tree sound and adds exactly the placed views, with the separator counter advanced by the separators created |
| ActionAssignment.AssignActionsKeeps | AEAlertViewDemo/Pods/AEAlertView/AEAlertView/Classes/AEBaseAlertView.swift:336-357 | assigning a list keeps the tree sound and the slots holding their views, only extends the log, and adds no image group |
| ActionAssignment.NonEmptyListKeepsOthers | AEAlertViewDemo/Pods/AEAlertView/AEAlertView/Classes/AEBaseAlertView.swift:338-340 | after a non-empty list the card holds exactly what it held before plus the placed views, and every action-container child that is not a button stays |
| ActionAssignment.NonEmptyListClosedForm | AEAlertViewDemo/Pods/AEAlertView/AEAlertView/Classes/AEBaseAlertView.swift:336-357 | with distinct buttons, every child list loses the buttons and the action container then ends with the placed views; the separator count grows by the separators created |
| ActionAssignment.NonEmptyAssigned | AEAlertViewDemo/Pods/AEAlertView/AEAlertView/Classes/AEBaseAlertView.swift:336-357 | a non-empty list is one detach of the listed buttons followed by the style's additions, appending exactly the emitted constraints |
| ActionAssignment.EmptyListClears | AEAlertViewDemo/Pods/AEAlertView/AEAlertView/Classes/AEBaseAlertView.swift:341-351 | an empty list leaves the action container empty, every other list as it was, and appends the container's pad and the swapped chain |
| ActionAssignment.EmptyArranged | AEAlertViewDemo/Pods/AEAlertView/AEAlertView/Classes/AEBaseAlertView.swift:416 | the loop of either style does nothing for an empty list |
| ActionAssignment.AppleSingleAssigned | AEAlertViewDemo/Pods/AEAlertView/AEAlertView/Classes/AEBaseAlertView.swift:396-413 | one apple button: the container loses it, then gains one new separator and the button |
| ActionAssignment.FirstSingleAssigned | AEAlertViewDemo/Pods/AEAlertView/AEAlertView/Classes/AEBaseAlertView.swift:396-413 | on an empty container one apple button leaves exactly a separator and the button, a sound tree, and one more separator counted |
| ActionAssignment.ReassigningKeepsSeparators | AEAlertViewDemo/Pods/AEAlertView/AEAlertView/Classes/AEBaseAlertView.swift:338-340 | assigning the same apple button twice leaves both separators and the button: the previous layout's separators are not removed |
| ActionAssignment.AssignedSound | AEAlertViewDemo/Pods/AEAlertView/AEAlertView/Classes/AEBaseAlertView.swift:336-357 | any assigned list, even one with repeated buttons, leaves a sound tree |
| ActionAssignment.AssignedLog | AEAlertViewDemo/Pods/AEAlertView/AEAlertView/Classes/AEBaseAlertView.swift:336-357 | assigning a list only extends the log and keeps the number of image groups |
| ActionAssignment.RearrangedClosedForm | AEAlertViewDemo/Pods/AEAlertView/AEAlertView/Classes/AEBaseAlertView.swift:338-340 | detaching distinct buttons and adding their layout is the same as removing them from each list and appending the layout to the action container |
| CardSkeleton.DefaultLayout | AEAlertViewDemo/Pods/AEAlertView/AEAlertView/Classes/AEBaseAlertView.swift:209-210 | the default chain stacks title, message, content, custom and actions, 20, 10, 5, 5 and 20 apart at priority 750, flush to the bottom |
| CardSkeleton.SkeletonEntries | AEAlertViewDemo/Pods/AEAlertView/AEAlertView/Classes/AEBaseAlertView.swift:138-207 | the skeleton centres the card, fixes its width at `maximumWidth`, caps its height at 90% of the host, pads every region, and has 11 entries and no image group |
| CardSkeleton.SpacingSubstitution | AEAlertViewDemo/Pods/AEAlertView/AEAlertView/Classes/AEBaseAlertView.swift:280-325 | a spacing setter's chain differs from the default chain only in the gap it names, which becomes a required gap of `margin` |
| CardSkeleton.BottomMarginSubstitution | AEAlertViewDemo/Pods/AEAlertView/AEAlertView/Classes/AEBaseAlertView.swift:326-331 | the bottom-margin chain keeps every gap above a region and changes only the gap to the bottom edge |
| CardSkeleton.MessageHeightOnly | AEAlertViewDemo/Pods/AEAlertView/AEAlertView/Classes/AEBaseAlertView.swift:302-307 | the message-height chain is the default chain except that the message, and only the message, has a fixed height |
| CardSkeleton.EmptyActionsOrderSwapped | AEAlertViewDemo/Pods/AEAlertView/AEAlertView/Classes/AEBaseAlertView.swift:349 | the empty-list chain keeps the default gaps but puts the custom slot above the content slot |
| CardSkeleton.SetterChainsAreNotImageGroups | AEAlertViewDemo/Pods/AEAlertView/AEAlertView/Classes/AEBaseAlertView.swift:264 | no setter chain or pad is an image group, and every image-setter group is one |
| CardSkeleton.RemovedAtDropsOne | AEAlertViewDemo/Pods/AEAlertView/AEAlertView/Classes/AEBaseAlertView.swift:260 | removing the tracked group takes exactly one entry out of the log and keeps all the others |
| CardState.ImageGroupReplaced | AEAlertViewDemo/Pods/AEAlertView/AEAlertView/Classes/AEBaseAlertView.swift:257-278 | replacing the image group keeps the card's invariant, leaving exactly one group, tracked at its new position |
| CardState.ActionsAssignedValid | AEAlertViewDemo/Pods/AEAlertView/AEAlertView/Classes/AEBaseAlertView.swift:336-357 | clearing then arranging is `AssignActions`, and it keeps the card's invariant |
| CardState.ContentSlotInstalled | AEAlertViewDemo/Pods/AEAlertView/AEAlertView/Classes/AEBaseAlertView.swift:216-233 | installing a content view keeps the invariant and leaves it the content container's only child |
| CardState.CustomSlotInstalled | AEAlertViewDemo/Pods/AEAlertView/AEAlertView/Classes/AEBaseAlertView.swift:235-252 | installing a custom view keeps the invariant and leaves it the custom container's only child |
| CardState.SlotInstalledMembers | AEAlertViewDemo/Pods/AEAlertView/AEAlertView/Classes/AEBaseAlertView.swift:217-222 | a slot installer changes the set of placed views by exactly the old view out and the new view in |
| CardState.SlotInstalledChildren | AEAlertViewDemo/Pods/AEAlertView/AEAlertView/Classes/AEBaseAlertView.swift:217-222 | after a slot installer the new view is that slot's only child and the other slot keeps only its own view |
| ViewTree.DetachedFacts | AEAlertViewDemo/Pods/AEAlertView/AEAlertView/Classes/AEBaseAlertView.swift:339 | after `removeFromSuperview` the view is nowhere in the tree, every other view is where it was, and no list grows |
| ViewTree.AddedFacts | AEAlertViewDemo/Pods/AEAlertView/AEAlertView/Classes/AEBaseAlertView.swift:419 | after `addSubview` the view occurs exactly once, every other view as often as before, and only the target's children gain a view |
| ViewTree.ClearedAction | AEAlertViewDemo/Pods/AEAlertView/AEAlertView/Classes/AEBaseAlertView.swift:342-344 | removing every child of the action container empties it and changes no other list |
| ViewTree.DetachedAllLists | AEAlertViewDemo/Pods/AEAlertView/AEAlertView/Classes/AEBaseAlertView.swift:338-340 | removing the listed buttons one by one removes them from each child list separately |
| ViewTree.SkeletonSound | AEAlertViewDemo/Pods/AEAlertView/AEAlertView/Classes/AEBaseAlertView.swift:160-211 | the tree right after construction has the skeleton in place and no view twice |
| Constraints.CountRemove | AEAlertViewDemo/Pods/AEAlertView/AEAlertView/Classes/AEBaseAlertView.swift:260 | taking an entry out of the log lowers the count of a kind by one exactly when the entry is of that kind |

## Left out

- Auto Layout solving: constraints are recorded, never solved, so no frame or geometry is computed.
- Removing a view from its superview also removes the constraints that mention it; the log keeps them. Only the image group is ever removed from the log.
- `CGFloat` values are integers. The height cap of 0.9 is kept as the percentage 90.
- Colours, fonts, corner radius, text alignment, `actionSplitLine` and the other cosmetic settings change no state the model tracks.
- `translatesAutoresizingMaskIntoConstraints` is not modelled; it is set on every view the card lays out.
- `AEAlertTextView` and its intrinsic size are not part of this model.
- InitSubviews: the content-hugging and compression-resistance priorities the source sets (vertical hugging `.required` and compression resistance `.defaultHigh` on the message view, compression resistance `.required` on the content, custom and action containers) are not recorded; they only matter to the Auto Layout solver, which is not modelled, when the priority-750 chain gives way under the 90% height cap.
- SetContent, SetCustom: slot content is modelled as an application view (`ClientView`); passing one of the card's own views, which the source's `UIView` parameter would accept, is not modelled.
- The host view's own child list is not modelled; the card adds only the background view to it (`addSubview(backgroundView)`).
- `init(coder:)`, whose only action is `fatalError`, and `deinit` are left out. So is the `frame` argument of `init(frame:)`: the card never reads it.
- `maximumWidth` is read once, when the card is built. Assigning it later changes no constraint, as in the source, and the model has no setter for it.
- `backgroundImage.image` is a field holding the image's natural height, set by the host. Its own setter is not part of this model.
- AppleActionStack: each pass creates its separator at the start of the pass, before the button is added, not where the source creates it. The separator gets the same serial number. The tree and the log change in the source's order.
- SetBackgroundImageBottomMargin: the image group is one log entry, although UIKit's visual-format parser returns it as an array of constraints.
- SetBackgroundImageHeight: as for the bottom margin, the image group is one log entry.
