# Marquee status item, modelled in Dafny

This project models the scrolling marquee of a macOS menu-bar app. The app
shows the Spotify track that is playing. When the title does not fit, it
scrolls the title in a repeating cycle: wait `startDelay`, scroll linearly to
the end, wait `endDelay`, snap back, and again.

- `common.dfy` (module `Common`) holds an `Option` type and the linear
  `transform.translation.x` animation that both marquee revisions attach to
  the label's layer. `OffsetAt` gives the horizontal offset the label shows
  at a given time.
- `spocon_marquee.dfy` (module `SpoconMarquee`) models the newer view in
  `Sources/spocon/MarqueeView.swift`.
  - `Engine` is the view's state as a value. The `After...` functions say
    what each operation and each scheduled closure does to it.
  - The class `MarqueeView` keeps the same state in fields. Each public
    operation (`SetText`, `SetDelays`, `StopMarquee`, `SetFrameWidth`,
    `Release`, `Advance`, `Fire`) keeps the invariant `Inv` and ensures the
    new state: an `After...` function of the old state, or for `SetDelays`,
    `SetFrameWidth`, `Release` and `Advance` the old state with those
    fields updated. The private steps `CancelPending`, `ScheduleStart`,
    `StartMarqueeIfNeeded` and `SnapBack` ensure their `After...` function
    and do not by themselves keep the invariant.
  - The main dispatch queue is a sequence of work items on a logical clock.
    `asyncAfter` appends an item and `DispatchWorkItem.cancel()` sets its
    cancelled flag. A cancelled item still comes due, but does nothing.
  - The invariant: at most one item is live, the handle for its kind refers
    to it, and the scroll animation is attached exactly while that item is
    the `Reload`.
- `legacy_marquee.dfy` (module `LegacyMarquee`) models the older view in
  `Sources/MyStatusBarApp/MarqueeView.swift`, in the same shape. It has no
  cancellable handles. The completion block of a scroll's transaction is an
  event that comes due when the animation ends. When the scroll is removed
  or replaced before then, its completion comes due at once, as Core
  Animation runs it. Each scroll carries an identity so that its completion
  can be found. The public operations `SetText`, `Advance` and `Fire` keep
  `Inv`. The private steps `StartSmoothMarquee` and `RemoveAllAnimations`
  ensure their functions without it.
- `status_item.dfy` (module `StatusItem`) models the controller in
  `Sources/spocon/StatusItemController.swift`:
  - trimming of the script output;
  - splitting on `"||"`, with `Join` as its inverse;
  - the `"♪ music / artist"` line;
  - the dictionary defaults;
  - the class `StatusItemController`, which keeps the last maximum width
    and creates its marquee view once.

Widths, delays and times are exact `real`s. Text measurement is a parameter:
a typographic width, which the newer view rounds up to a whole point.

Points where the code behaves differently from what one might expect:
- The newer view's scroll test and scroll distance use the view's own
  bounds width, `visibleWidth` here, not the `containerWidth` given to
  `setText`. Under the controller both are the maximum width
  (`StatusItem.ControllerTextScrolls`).
- `stopMarquee` does not look at the fit again. It leaves the view idle.
- A view that goes away does not cancel its items. Its closures find
  `self` nil and do nothing (`SpoconMarquee.FireOnGoneView`).
- Only the newer revision's `setText` is idempotent. The older one stacks
  starts; see Findings.
- The newer revision's default `endDelay` is 2. The 500/200/60 example with
  a 7-second cycle holds for the older revision, whose delays are both 1.

## Model

| member | source | states |
|---|---|---|
| Common.OffsetAt | Sources/spocon/MarqueeView.swift:106-114 | With no animation the offset is 0. Before the animation begins it is at `from`, and after it ends it stays at `to` (fill mode forwards, not removed on completion). For a leftward scroll it lies between the two. |
| Common.OffsetIsLinear | Sources/spocon/MarqueeView.swift:111 | Linear timing: between two instants inside the animation, the offset changes by the velocity times the elapsed time. |
| Common.OffsetNeverIncreases | Sources/spocon/MarqueeView.swift:106-114 | A scroll towards `-distance` never moves the label back. |
| SpoconMarquee.MeasureTextWidth | Sources/spocon/MarqueeView.swift:143-148 | The measured width is a whole number of points, at least the typographic width and less than one point more. |
| SpoconMarquee.ScrollDistance | Sources/spocon/MarqueeView.swift:96-99 | When the text overflows the bounds, the distance (overflow plus the 1-point epsilon) exceeds 1. So the `distance > 0` guard always passes. |
| SpoconMarquee.CancelLive | Sources/spocon/MarqueeView.swift:41-42 | Cancelling through a handle takes exactly the item it refers to out of the live items. It is harmless when the handle is nil or its item already ran. |
| SpoconMarquee.LiveRemoveAt | Sources/spocon/MarqueeView.swift:74 | When the queue runs an item, nothing changes among the live items if it was cancelled. If it was live, there is one fewer. |
| SpoconMarquee.LiveRemoveAtSplits | Sources/spocon/MarqueeView.swift:74 | A live item that runs leaves the queue's live items as exactly those before it followed by those after it, in order. |
| SpoconMarquee.CancelBothClears | Sources/spocon/MarqueeView.swift:40-44 | Cancelling both handles, whatever state the view is in, leaves no live item. |
| SpoconMarquee.SetTextWhenFits | Sources/spocon/MarqueeView.swift:59-69 | Text that fits `containerWidth` leaves nothing pending, both handles nil, no animation, offset 0 at all times, and the view idle. |
| SpoconMarquee.SetTextWhenOverflows | Sources/spocon/MarqueeView.swift:71-74 | Overflowing text leaves exactly one live item: a `Start` due `startDelay` from now, held by `startWorkItem`, with `restartWorkItem` nil and the view waiting to start. |
| SpoconMarquee.SetTextForgetsHistory | Sources/spocon/MarqueeView.swift:38-75 | The observable result of `setText` does not depend on what was pending or animating before. A call mid-scroll gives what a call on an idle view gives. |
| SpoconMarquee.SetTextIdempotent | Sources/spocon/MarqueeView.swift:39-75 | Calling `setText` twice with the same arguments looks like calling it once, and leaves at most one timer. |
| SpoconMarquee.SetTextKeepsInv | Sources/spocon/MarqueeView.swift:39-75 | `setText` keeps the invariant. |
| SpoconMarquee.StopCancelsEverything | Sources/spocon/MarqueeView.swift:84-90 | `stopMarquee` leaves nothing pending, both handles nil, no animation, and the view idle at offset 0. |
| SpoconMarquee.DelaysApplyToLaterScheduling | Sources/spocon/MarqueeView.swift:78-81 | New delays do not move a pending timer. The next `setText` schedules its start with the new `startDelay`. |
| SpoconMarquee.FireKeepsInv | Sources/spocon/MarqueeView.swift:92-134 | Running any item keeps the invariant. |
| SpoconMarquee.StartWhenTextFitsBounds | Sources/spocon/MarqueeView.swift:92-94 | A start that finds the text within the view's bounds width does nothing. The cycle ends and the view is idle. |
| SpoconMarquee.ScrollExample | Sources/spocon/MarqueeView.swift:96-114 | A width of 500 in bounds of 200 gives a scroll from 0 to -301 over 301/60 seconds, with the reload due `endDelay` after it ends. |
| SpoconMarquee.StartFires | Sources/spocon/MarqueeView.swift:92-133 | A live start with overflowing text scrolls linearly from 0 to -(textWidth - visibleWidth + 1) over distance/60. The only timer is then the `Reload`, due after the scroll plus `endDelay` and held by `restartWorkItem`. The view is scrolling during the animation and waiting at the end afterwards. |
| SpoconMarquee.ScrollPhases | Sources/spocon/MarqueeView.swift:116-133 | While the reload is pending, the phase is Scrolling until the animation ends and WaitingAtEnd after that. |
| SpoconMarquee.ReloadFires | Sources/spocon/MarqueeView.swift:117-130 | The reload removes the animation. It replaces `restartWorkItem` with a single `Restart` due `startDelay` later, so the view waits to start again. |
| SpoconMarquee.CycleRepeats | Sources/spocon/MarqueeView.swift:92-133 | One full turn brings the view back to a single pending `Restart`, due one `CyclePeriod` (startDelay + duration + endDelay) after the start, with the same text and bounds. That is the state the turn started from. |
| SpoconMarquee.FireOnGoneView | Sources/spocon/MarqueeView.swift:117-118 | On a view that is gone (`[weak self]` is nil), a closure only leaves the queue, and the clock never goes back. |
| SpoconMarquee.OffsetZeroUnlessScrolling | Sources/spocon/MarqueeView.swift:58-63 | Whenever the view is idle or waiting to start, the label is at offset 0. |
| SpoconMarquee.MarqueeView.constructor | Sources/spocon/MarqueeView.swift:18-34 | A new view has container 200, width 0, delays 1 and 2, nothing pending and no animation, and its bounds are the given frame width. |
| SpoconMarquee.MarqueeView.SetText | Sources/spocon/MarqueeView.swift:39-75 | The fields end up as `AfterSetText` says, and the invariant holds. |
| SpoconMarquee.MarqueeView.CancelPending | Sources/spocon/MarqueeView.swift:40-44 | Both items are cancelled and both handles are nil. Nothing else changes. |
| SpoconMarquee.MarqueeView.ScheduleStart | Sources/spocon/MarqueeView.swift:71-74 | One `Start` item is appended, due `startDelay` from now, and `startWorkItem` refers to it. |
| SpoconMarquee.MarqueeView.SetDelays | Sources/spocon/MarqueeView.swift:78-81 | Only the two delays change. |
| SpoconMarquee.MarqueeView.StopMarquee | Sources/spocon/MarqueeView.swift:84-90 | The fields end up as `AfterStop` says, and the invariant holds. |
| SpoconMarquee.MarqueeView.SetFrameWidth | Sources/spocon/MarqueeView.swift:93 | Only the bounds width that `startMarqueeIfNeeded` reads changes. |
| SpoconMarquee.MarqueeView.Release | Sources/spocon/MarqueeView.swift:72 | After the owner lets go, `[weak self]` is nil for every pending closure, and nothing else changes. |
| SpoconMarquee.MarqueeView.Advance | Sources/spocon/MarqueeView.swift:74 | Time passes without reaching a due item, and only the clock moves. |
| SpoconMarquee.MarqueeView.Fire | Sources/spocon/MarqueeView.swift:117-133 | Running the earliest due item gives `AfterFire`, and the invariant holds. |
| SpoconMarquee.MarqueeView.StartMarqueeIfNeeded | Sources/spocon/MarqueeView.swift:92-134 | The fields end up as `AfterStartMarqueeIfNeeded` says: no change when the text fits the bounds, otherwise the scroll animation plus the reload held by `restartWorkItem`. |
| SpoconMarquee.MarqueeView.SnapBack | Sources/spocon/MarqueeView.swift:117-130 | The animation is gone, and a `Restart` due `startDelay` later replaces `restartWorkItem`. |
| LegacyMarquee.RemoveScroll | Sources/MyStatusBarApp/MarqueeView.swift:47 | Removing the label's animation leaves no animation. The completion of the removed scroll comes due no later than now, and every other pending event is left as it was. |
| LegacyMarquee.Expedite | Sources/MyStatusBarApp/MarqueeView.swift:77-89 | Only the completions of the given scroll are moved, each to the earlier of its due time and now. Every other event keeps its place and due time. |
| LegacyMarquee.RemoveScrollKeepsInv | Sources/MyStatusBarApp/MarqueeView.swift:47 | Removing the scroll keeps every pending completion tied to a scroll already added. |
| LegacyMarquee.SetTextWhenFits | Sources/MyStatusBarApp/MarqueeView.swift:46-53 | Text that fits schedules nothing new. The animation is removed and the offset is 0. A scroll still running has its completion come due now. |
| LegacyMarquee.SetTextWhenOverflows | Sources/MyStatusBarApp/MarqueeView.swift:55-59 | Overflowing text removes the animation like text that fits. It then appends exactly one `Start` due `startDelay` from now, after everything already pending. |
| LegacyMarquee.StartWhenTextFits | Sources/MyStatusBarApp/MarqueeView.swift:63 | A start that finds the text within `containerWidth` only leaves the queue. |
| LegacyMarquee.StartScrollsByOverflow | Sources/MyStatusBarApp/MarqueeView.swift:62-100 | The distance is exactly `textWidth - containerWidth`: positive, with no epsilon and no `gap`. The new scroll replaces the label's animation under the same key and goes linearly from 0 to `-distance` over distance/60. Its completion is due when it ends. The replaced scroll's completion comes due now. |
| LegacyMarquee.FireKeepsInv | Sources/MyStatusBarApp/MarqueeView.swift:62-100 | Every animation the view adds has a positive duration, and every pending completion belongs to a scroll already added. |
| LegacyMarquee.CycleRepeats | Sources/MyStatusBarApp/MarqueeView.swift:77-88 | Start, completion and snap run in turn. The snap removes the animation and leaves a `Restart` due one `CyclePeriod` after the start. Everything else pending stays pending, in order, except that a scroll the start replaced has its completion come due at the start. |
| LegacyMarquee.CompleteThenSnap | Sources/MyStatusBarApp/MarqueeView.swift:77-88 | When the label's own scroll completes, the snap is due `endDelay` later. The snap removes that scroll, whose completion has already run, and leaves a `Restart` due `startDelay` after it. Nothing else pending changes. |
| LegacyMarquee.DefaultCycleExample | Sources/MyStatusBarApp/MarqueeView.swift:13-18 | A width of 500 in a container of 200 gives distance 300, duration 5 and period 7. |
| LegacyMarquee.RepeatedSetTextDuplicatesStarts | Sources/MyStatusBarApp/MarqueeView.swift:55-59 | Two identical overflowing `setText` calls leave two starts pending. Once both have run, two completion chains are pending and the label shows only the second scroll. The first chain's completion comes due at once, because its scroll was replaced. When the scroll lasts longer than `endDelay`, that chain's snap removes the second scroll before it ends, and the label jumps back to 0. |
| LegacyMarquee.SecondStartReplacesFirst | Sources/MyStatusBarApp/MarqueeView.swift:97 | With two starts due together, the second replaces the first one's scroll under the same key. The first scroll's completion comes due at once, and the label shows only the second scroll. |
| LegacyMarquee.FirstSnapCutsSecond | Sources/MyStatusBarApp/MarqueeView.swift:81-84 | The snap of the first chain removes the second scroll `endDelay` after the start, before that scroll ends. The label is back at 0, and the second scroll's completion comes due then. |
| LegacyMarquee.MarqueeView.constructor | Sources/MyStatusBarApp/MarqueeView.swift:13-27 | A new view has container 200, width 0, nothing pending and no animation. |
| LegacyMarquee.MarqueeView.SetText | Sources/MyStatusBarApp/MarqueeView.swift:32-60 | The fields end up as `AfterSetText` says: the raw width, no animation, and at most one new start. The invariant holds. |
| LegacyMarquee.MarqueeView.RemoveAllAnimations | Sources/MyStatusBarApp/MarqueeView.swift:82 | The fields end up as `RemoveScroll` says. |
| LegacyMarquee.MarqueeView.Advance | Sources/MyStatusBarApp/MarqueeView.swift:57 | Time passes without reaching a due event, and only the clock moves. |
| LegacyMarquee.MarqueeView.Fire | Sources/MyStatusBarApp/MarqueeView.swift:57-88 | Running the earliest due closure gives `AfterFire`: a start scrolls, the completion schedules the snap, and the snap removes the animation and schedules the restart. The invariant holds. |
| LegacyMarquee.MarqueeView.StartSmoothMarquee | Sources/MyStatusBarApp/MarqueeView.swift:62-100 | The fields end up as `AfterStartSmooth` says: a new scroll with a fresh identity, replacing the old one. |
| StatusItem.Trim | Sources/spocon/StatusItemController.swift:94 | The trimmed text neither starts nor ends with a space or newline. It is empty exactly when the output is all spaces. |
| StatusItem.TrimInfix | Sources/spocon/StatusItemController.swift:94 | Trimming keeps one contiguous part of the output and drops only spaces on either side of it. |
| StatusItem.TrimClean | Sources/spocon/StatusItemController.swift:94 | Text with no space at either end is unchanged by trimming. |
| StatusItem.TrimIdempotent | Sources/spocon/StatusItemController.swift:94 | Trimming twice is trimming once. |
| StatusItem.TrimPadding | Sources/spocon/StatusItemController.swift:94 | Trailing spaces after clean text are exactly what trimming removes. |
| StatusItem.FindSeparator | Sources/spocon/StatusItemController.swift:103 | The result is the leftmost `"||"` at or after the start point, or none when there is none. |
| StatusItem.Components | Sources/spocon/StatusItemController.swift:103 | Splitting gives at least one piece, and no piece holds `"||"`. |
| StatusItem.JoinComponents | Sources/spocon/StatusItemController.swift:103 | Joining the pieces with `"||"` gives back the text. |
| StatusItem.ComponentsStep | Sources/spocon/StatusItemController.swift:103 | A first piece with no separator and no final bar splits off whole. |
| StatusItem.ComponentsJoin | Sources/spocon/StatusItemController.swift:103 | Pieces with no `"||"`, none but the last ending in a bar, split back into themselves after joining. |
| StatusItem.ParseOutput | Sources/spocon/StatusItemController.swift:93-105 | Unreadable output is ignored, and output that is all spaces clears the display. |
| StatusItem.ParseJoined | Sources/spocon/StatusItemController.swift:103-105 | The title is the first piece and the artist the second. Further pieces are ignored, and trailing newlines make no difference. |
| StatusItem.ParseRoundTrip | Sources/spocon/StatusItemController.swift:71-105 | The script's `t & "||" & a` plus newline parses back to `(t, a)`. |
| StatusItem.ParseNoArtist | Sources/spocon/StatusItemController.swift:103-105 | Output without a separator is all title, with an empty artist. |
| StatusItem.ParseAmbiguousTitle | Sources/spocon/StatusItemController.swift:103-105 | A title that ends with a bar loses it to the artist: `"x|"` and `"y"` come out as `"x"` and `"|y"`. |
| StatusItem.NowPlayingLine | Sources/spocon/StatusItemController.swift:131 | The line is `"♪ "`, then the music, then `" / "`, then the artist, and nothing else. |
| StatusItem.FieldsFromDictionary | Sources/spocon/StatusItemController.swift:142-143 | A present key gives its value, and a missing one gives `""`. |
| StatusItem.DisplayTextFor | Sources/spocon/StatusItemController.swift:95-108 | Nothing is shown for ignored output, `""` for "not playing", and the now-playing line for a track. |
| StatusItem.ScriptOutputDisplayed | Sources/spocon/StatusItemController.swift:107-108 | A playing track's output ends up on the display as `"♪ title / artist"`. |
| StatusItem.ControllerTextScrolls | Sources/spocon/StatusItemController.swift:118-126 | Under the controller, bounds and container are both the maximum width. Text that overflows when set is text whose start scrolls. |
| StatusItem.StatusItemController.constructor | Sources/spocon/StatusItemController.swift:17-21 | A new controller has maximum width 200, a status item of variable length, and no view. |
| StatusItem.StatusItemController.Setup | Sources/spocon/StatusItemController.swift:34 | `setup` shows the placeholder text with no width given. |
| StatusItem.StatusItemController.SetText | Sources/spocon/StatusItemController.swift:112-127 | A given width replaces the maximum width, and none keeps it. With a button, the status item takes that length. The first call creates the view at that width, and later calls keep the same view and only reset its frame. The view gets the text with that width as its container. |
| StatusItem.StatusItemController.SetNowPlaying | Sources/spocon/StatusItemController.swift:130-133 | This has the effect of `setText` with exactly `"♪ " + music + " / " + artist`. |
| StatusItem.StatusItemController.SetNowPlayingInfo | Sources/spocon/StatusItemController.swift:136-138 | This has the effect of `setText` with the line made of the struct's fields. |
| StatusItem.StatusItemController.SetNowPlayingFrom | Sources/spocon/StatusItemController.swift:141-145 | This has the effect of `setText` with the line made of `"music"` and `"artist"`, each `""` when missing. |
| StatusItem.StatusItemController.HandleScriptOutput | Sources/spocon/StatusItemController.swift:95-109 | Ignored output changes nothing. Otherwise the display is set, with no width given, to `""` or to the now-playing line. |

## Left out

- StatusItem.ParseRoundTrip: requires that the title does not end with `|` and that no field holds `"||"`. This is weaker than a plain round trip because `components(separatedBy:)` splits at the leftmost separator. `ParseAmbiguousTitle` shows what happens otherwise.
- SpoconMarquee.MarqueeView.Fire and LegacyMarquee.MarqueeView.Fire: require the item to be one that is due earliest, and `Advance` may not pass a due item. The main queue's ordering among items due at the same time is not modelled.
- The newer view's `guard distance > 0` and `guard let layer` are left out. The first always passes (`ScrollDistance`). The label always has a layer, because `wantsLayer` is set when the view is created.
- The older view's completion block runs, in the model, as a main-queue event. When a scroll is removed or replaced, its completion is due at that moment rather than run inside the removing call. The order among events due at the same moment is not modelled (see `Fire` above).
- The older view going away is not modelled: its inner closures hold `self` strongly.
- AppKit rendering is not modelled: fonts, the label's frame and its vertical centring in `layout()`, and layer interpolation. Both views set the label's x origin to 0 and never move it, so the offset is the animation's.
- Glyph measurement (CoreText, `NSString.size`) is a parameter. For the controller it is a fixed function of the text in the button's font.
- `CGFloat` and `TimeInterval` arithmetic is exact real arithmetic here.
- The polling timer, the `osascript` process and its pipes are I/O and threads. What reaches the main queue is the decoded output, or nothing when decoding or launching failed. The hop to the main queue is collapsed into one call.
- The status item's menu, `buttonClicked` and `quit` are not modelled. Whether the status item has a button is a constant of the controller.
- `Sources/MyStatusBarApp/StatusItemController.swift`, `Sources/MyStatusBarApp/main.swift` and `Package.swift` are not part of this model.

## Findings

| source | as written | input that shows it | evidently intended | confidence | as-written member | corrected member |
|---|---|---|---|---|---|---|
| Sources/MyStatusBarApp/MarqueeView.swift:55-59 | `setText` schedules a start without cancelling earlier ones, so each overflowing call adds another cycle | two `setText` calls with the same 500-point text in a 200-point container: two starts pending. After both run, two completion chains are pending and the label shows only the second scroll. One second later the first chain's snap cuts the 5-second scroll short | a new `setText` supersedes pending work, so repeating the call is idempotent, as the later revision does with cancellable work items | not executed | LegacyMarquee.RepeatedSetTextDuplicatesStarts | SpoconMarquee.SetTextIdempotent |
