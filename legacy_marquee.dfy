/** The older marquee view, of the `MyStatusBarApp` target. It measures its
    text without rounding and tests the fit against `containerWidth` both
    when the text is set and when a scroll is about to start. An
    overflowing text schedules a start after `startDelay`; a scroll moves the
    label linearly by exactly `textWidth - containerWidth`, and the animation's
    completion block schedules the snap back after `endDelay`, which in turn
    schedules the next start after `startDelay`. Nothing it schedules can be
    cancelled: a new text leaves every earlier closure pending.

    Core Animation runs a transaction's completion block when its animation
    ends or when the animation is removed before that, whichever comes first.
    The label's scroll is removed by `setText`, by the snap, and by a later
    start that adds its own scroll under the same key; so each scroll carries
    an identity, and removing it makes its pending completion due at once.

    As for the newer revision, `Engine` is the state as a value, the
    `After...` functions say what each operation and each scheduled closure
    does to it, and the class `MarqueeView` holds the state in fields. */
module LegacyMarquee {
  import opened Common

  const SpeedPointsPerSecond: real := 60.0
  const StartDelay: real := 1.0
  const EndDelay: real := 1.0
  /** Declared by the view but used nowhere: the distance leaves no gap. */
  const Gap: real := 30.0
  const DefaultContainerWidth: real := 200.0

  /** The closures the view hands to the main queue: `Start` is the one
      `setText` schedules, `Complete(s)` the completion block of the
      transaction that added scroll `s`, `Snap` the closure it schedules after
      `endDelay`, and `Restart` the one that runs `startSmoothMarquee` again. */
  datatype Kind = Start | Complete(scroll: nat) | Snap | Restart

  datatype Event = Event(kind: Kind, due: real)

  datatype Engine = Engine(
    now: real,                 // the main queue's clock
    queue: seq<Event>,         // closures scheduled and not yet run
    text: string,              // the label's string value
    containerWidth: real,
    textWidth: real,
    animation: Option<Scroll>, // the translation animation on the label's layer
    scroll: nat,               // the identity of that animation
    nextScroll: nat)           // the identity the next scroll will get

  function Initial(): Engine
  {
    Engine(0.0, [], "", DefaultContainerWidth, 0.0, None, 0, 0)
  }

  /** Every completion pending belongs to a scroll already added. */
  ghost predicate CompletionsBelow(q: seq<Event>, bound: nat)
  {
    forall k :: 0 <= k < |q| && q[k].kind.Complete? ==> q[k].kind.scroll < bound
  }

  /** Every animation the view adds has a positive duration, and identities
      handed out so far lie below `nextScroll`. */
  ghost predicate Inv(e: Engine)
  {
    && (e.animation.Some? ==> e.animation.value.duration > 0.0 && e.scroll < e.nextScroll)
    && CompletionsBelow(e.queue, e.nextScroll)
  }

  function ScrollDistance(textWidth: real, containerWidth: real): real
  {
    textWidth - containerWidth
  }

  function ScrollDuration(distance: real): real
  {
    distance / SpeedPointsPerSecond
  }

  /** From one start of a scroll to the next: the scroll, the wait at the
      end, the wait at the start. */
  function CyclePeriod(e: Engine): real
  {
    ScrollDuration(ScrollDistance(e.textWidth, e.containerWidth)) + EndDelay + StartDelay
  }

  function RemoveAt(q: seq<Event>, i: nat): seq<Event>
    requires i < |q|
  {
    q[..i] + q[i + 1..]
  }

  // ---------------------------------------------------------------------
  // The operations, as functions of the state

  /** `q` is what the queue of `e` becomes when the label's animation is
      removed at `e.now`: the completion of that scroll comes due no later
      than now, and every other event is left as it was. */
  ghost predicate CompletedEarly(e: Engine, q: seq<Event>)
  {
    && |q| == |e.queue|
    && forall k :: 0 <= k < |q| ==>
         q[k] == if e.animation.Some? && e.queue[k].kind == Complete(e.scroll)
                 then e.queue[k].(due := Min(e.queue[k].due, e.now))
                 else e.queue[k]
  }

  /** The completion of scroll `scroll` comes due by `t` at the latest. */
  function Expedite(q: seq<Event>, scroll: nat, t: real): (r: seq<Event>)
    ensures |r| == |q|
    ensures forall k :: 0 <= k < |q| && q[k].kind != Complete(scroll) ==> r[k] == q[k]
    ensures forall k :: 0 <= k < |q| && q[k].kind == Complete(scroll) ==>
      r[k] == q[k].(due := Min(q[k].due, t))
  {
    if q == [] then []
    else
      var head := if q[0].kind == Complete(scroll) then q[0].(due := Min(q[0].due, t)) else q[0];
      [head] + Expedite(q[1..], scroll, t)
  }

  /** `removeAllAnimations`, or an `add` that replaces the animation under
      the same key: the label loses its scroll, and the completion block of
      that scroll's transaction runs at once if it has not run yet. */
  function RemoveScroll(e: Engine): (r: Engine)
    ensures r.animation == None && CompletedEarly(e, r.queue)
    ensures r == e.(animation := None, queue := r.queue)
  {
    if e.animation.None? then e
    else e.(animation := None, queue := Expedite(e.queue, e.scroll, e.now))
  }

  /** `setText`: store the container width, the text and its raw width,
      remove the animations, and when the text does not fit schedule a
      `Start` after `startDelay`. Nothing scheduled earlier is cancelled. */
  function AfterSetText(e: Engine, text: string, width: real, containerWidth: real): Engine
  {
    var e1 := RemoveScroll(e).(containerWidth := containerWidth, text := text, textWidth := width);
    if width <= containerWidth then e1
    else e1.(queue := e1.queue + [Event(Start, e1.now + StartDelay)])
  }

  /** `startSmoothMarquee`: when the text overflows `containerWidth`, replace
      the label's animation by a new scroll from 0 to `-distance` over
      distance / speed, whose completion block comes due when it ends. */
  function AfterStartSmooth(e: Engine): Engine
  {
    if e.textWidth <= e.containerWidth then e
    else
      var distance := ScrollDistance(e.textWidth, e.containerWidth);
      var duration := ScrollDuration(distance);
      var e1 := RemoveScroll(e);
      e1.(animation := Some(Scroll(0.0, -distance, duration, e.now)),
          scroll := e.nextScroll, nextScroll := e.nextScroll + 1,
          queue := e1.queue + [Event(Complete(e.nextScroll), e.now + duration)])
  }

  /** The main queue runs event `i`: it leaves the queue, the clock reaches
      its due time, and the closure runs. */
  function AfterFire(e: Engine, i: nat): Engine
    requires i < |e.queue|
  {
    var ev := e.queue[i];
    var e1 := e.(queue := RemoveAt(e.queue, i), now := Max(e.now, ev.due));
    match ev.kind
    case Start => AfterStartSmooth(e1)
    case Restart => AfterStartSmooth(e1)
    case Complete(_) => e1.(queue := e1.queue + [Event(Snap, e1.now + EndDelay)])
    case Snap =>
      var e2 := RemoveScroll(e1);
      e2.(queue := e2.queue + [Event(Restart, e2.now + StartDelay)])
  }

  // ---------------------------------------------------------------------
  // Lemmas

  /** When no completion of `scroll` is pending, expediting it changes
      nothing. */
  lemma ExpediteNothingPending(q: seq<Event>, scroll: nat, t: real)
    requires forall k :: 0 <= k < |q| ==> q[k].kind != Complete(scroll)
    ensures Expedite(q, scroll, t) == q
  {
  }

  /** Removing the scroll keeps every identity below `nextScroll`. */
  lemma RemoveScrollKeepsInv(e: Engine)
    requires Inv(e)
    ensures Inv(RemoveScroll(e))
  {
    var q := RemoveScroll(e).queue;
    forall k | 0 <= k < |q| && q[k].kind.Complete?
      ensures q[k].kind.scroll < e.nextScroll
    {
      assert q[k].kind == e.queue[k].kind;
    }
  }

  /** Text that fits: nothing new is scheduled, the animation is gone, the
      label sits at offset 0, and the completion of the removed scroll comes
      due now. */
  lemma SetTextWhenFits(e: Engine, text: string, width: real, containerWidth: real)
    requires Inv(e) && width <= containerWidth
    ensures var r := AfterSetText(e, text, width, containerWidth);
      && Inv(r) && CompletedEarly(e, r.queue) && r.animation == None
      && r.textWidth == width && r.containerWidth == containerWidth && r.text == text
      && forall t :: OffsetAt(r.animation, t) == 0.0
  {
    RemoveScrollKeepsInv(e);
  }

  /** Text that overflows: exactly one `Start` is added, due `startDelay`
      from now, after everything already pending. */
  lemma SetTextWhenOverflows(e: Engine, text: string, width: real, containerWidth: real)
    requires Inv(e) && width > containerWidth
    ensures var r := AfterSetText(e, text, width, containerWidth);
      && Inv(r) && |r.queue| == |e.queue| + 1
      && CompletedEarly(e, r.queue[..|e.queue|])
      && r.queue[|e.queue|] == Event(Start, e.now + StartDelay)
      && r.animation == None && r.textWidth == width && r.containerWidth == containerWidth
      && forall t :: OffsetAt(r.animation, t) == 0.0
  {
    var e1 := RemoveScroll(e);
    RemoveScrollKeepsInv(e);
    assert AfterSetText(e, text, width, containerWidth).queue[..|e.queue|] == e1.queue;
  }

  /** A start that finds the text fitting does nothing but leave the queue. */
  lemma StartWhenTextFits(e: Engine, i: nat)
    requires i < |e.queue| && e.queue[i].kind in {Start, Restart}
    requires e.textWidth <= e.containerWidth
    ensures var r := AfterFire(e, i);
      r == e.(queue := RemoveAt(e.queue, i), now := Max(e.now, e.queue[i].due))
  {
  }

  /** A start that finds the text overflowing replaces the label's animation
      by a scroll of exactly the overflow: positive, with no epsilon and no
      `Gap`. Its completion is due when it ends; the replaced scroll's
      completion comes due now. */
  lemma StartScrollsByOverflow(e: Engine)
    requires Inv(e) && e.textWidth > e.containerWidth
    ensures var r := AfterStartSmooth(e);
      var distance := e.textWidth - e.containerWidth;
      var n := |e.queue|;
      && distance > 0.0
      && r.animation == Some(Scroll(0.0, -distance, distance / SpeedPointsPerSecond, e.now))
      && r.scroll == e.nextScroll && r.nextScroll == e.nextScroll + 1
      && |r.queue| == n + 1 && CompletedEarly(e, r.queue[..n])
      && r.queue[n] == Event(Complete(e.nextScroll), e.now + distance / SpeedPointsPerSecond)
      && Inv(r)
  {
    var e1 := RemoveScroll(e);
    RemoveScrollKeepsInv(e);
    assert AfterStartSmooth(e).queue[..|e.queue|] == e1.queue;
  }

  lemma FireKeepsInv(e: Engine, i: nat)
    requires Inv(e) && i < |e.queue|
    ensures Inv(AfterFire(e, i))
  {
    var e1 := e.(queue := RemoveAt(e.queue, i), now := Max(e.now, e.queue[i].due));
    assert forall k :: 0 <= k < |e1.queue| ==> e1.queue[k] in e.queue;
    RemoveScrollKeepsInv(e1);
    if e.queue[i].kind in {Start, Restart} && e1.textWidth > e1.containerWidth {
      StartScrollsByOverflow(e1);
    }
  }

  /** One turn of the cycle. A `Start` or `Restart` due at `d` fires with the
      text overflowing: the label scrolls from 0 to the overflow and the
      completion block is due when the scroll ends. That runs and schedules
      the snap `endDelay` later; the snap removes the animation and
      schedules a `Restart` `startDelay` later, one `CyclePeriod` after `d`.
      Whatever else was pending stays pending, in its order, except that the
      completion of a scroll the start replaces comes due at `d`. */
  lemma {:induction false} CycleRepeats(e: Engine, i: nat)
    requires Inv(e)
    requires i < |e.queue| && e.queue[i].kind in {Start, Restart}
    requires e.textWidth > e.containerWidth && e.now <= e.queue[i].due
    ensures var d := e.queue[i].due;
      var rest := RemoveAt(e.queue, i);
      var n := |rest|;
      var duration := ScrollDuration(ScrollDistance(e.textWidth, e.containerWidth));
      var e1 := AfterFire(e, i);
      && |e1.queue| == n + 1
      && CompletedEarly(e.(queue := rest, now := d), e1.queue[..n])
      && e1.queue[n] == Event(Complete(e.nextScroll), d + duration)
      && e1.animation == Some(Scroll(0.0, -(e.textWidth - e.containerWidth), duration, d))
      && var e2 := AfterFire(e1, n);
      && e2.queue == e1.queue[..n] + [Event(Snap, d + duration + EndDelay)]
      && e2.animation == e1.animation
      && var e3 := AfterFire(e2, n);
      && e3.queue == e1.queue[..n] + [Event(Restart, d + CyclePeriod(e))]
      && e3.animation == None && e3.now == d + duration + EndDelay
      && e3.textWidth == e.textWidth && e3.containerWidth == e.containerWidth
  {
    var d := e.queue[i].due;
    var rest := RemoveAt(e.queue, i);
    var n := |rest|;
    var duration := ScrollDuration(ScrollDistance(e.textWidth, e.containerWidth));
    var e0 := e.(queue := rest, now := d);
    var base := RemoveScroll(e0).queue;
    RemoveAtKeepsBelow(e.queue, i, e.nextScroll);
    StartScrollsByOverflow(e0);
    var e1 := AfterFire(e, i);
    assert e1 == AfterStartSmooth(e0);
    assert e1.queue[..n] == base;
    NewScrollNotPending(e0);
    CompleteThenSnap(e1, n, duration);
  }

  lemma RemoveAtKeepsBelow(q: seq<Event>, i: nat, bound: nat)
    requires i < |q| && CompletionsBelow(q, bound)
    ensures CompletionsBelow(RemoveAt(q, i), bound)
  {
    var r := RemoveAt(q, i);
    forall k | 0 <= k < |r| && r[k].kind.Complete?
      ensures r[k].kind.scroll < bound
    {
      assert r[k] == if k < i then q[k] else q[k + 1];
    }
  }

  /** No completion of the scroll a start is about to add is pending. */
  lemma NewScrollNotPending(e: Engine)
    requires CompletionsBelow(e.queue, e.nextScroll)
    ensures var q := RemoveScroll(e).queue;
      forall k :: 0 <= k < |q| ==> q[k].kind != Complete(e.nextScroll)
  {
    var q := RemoveScroll(e).queue;
    forall k | 0 <= k < |q|
      ensures q[k].kind != Complete(e.nextScroll)
    {
      assert q[k].kind == e.queue[k].kind;
    }
  }

  /** The second half of a turn: the completion of the label's own scroll,
      due at the end of the scroll, runs and schedules the snap; the snap
      removes that scroll, whose completion has already run, and schedules
      the restart. */
  lemma CompleteThenSnap(e1: Engine, n: nat, duration: real)
    requires |e1.queue| == n + 1 && duration > 0.0 && e1.animation.Some?
    requires e1.queue[n] == Event(Complete(e1.scroll), e1.now + duration)
    requires forall k :: 0 <= k < n ==> e1.queue[k].kind != Complete(e1.scroll)
    ensures var e2 := AfterFire(e1, n);
      && e2.queue == e1.queue[..n] + [Event(Snap, e1.now + duration + EndDelay)]
      && e2.animation == e1.animation
      && var e3 := AfterFire(e2, n);
      && e3.queue == e1.queue[..n] + [Event(Restart, e1.now + duration + EndDelay + StartDelay)]
      && e3.animation == None && e3.now == e1.now + duration + EndDelay
      && e3.textWidth == e1.textWidth && e3.containerWidth == e1.containerWidth
  {
    var base := e1.queue[..n];
    assert RemoveAt(e1.queue, n) == base;
    var e2 := AfterFire(e1, n);
    assert e2.queue == base + [Event(Snap, e1.now + duration + EndDelay)];
    assert RemoveAt(e2.queue, n) == base;
    ExpediteNothingPending(base, e1.scroll, e1.now + duration + EndDelay);
  }

  /** With the default speed and delays, a 500-point text in a 200-point
      container scrolls 300 points in 5 seconds, and the cycle takes 7. */
  lemma DefaultCycleExample(e: Engine)
    requires e.textWidth == 500.0 && e.containerWidth == 200.0
    ensures ScrollDistance(e.textWidth, e.containerWidth) == 300.0
    ensures ScrollDuration(ScrollDistance(e.textWidth, e.containerWidth)) == 5.0
    ensures CyclePeriod(e) == 7.0
  {
  }

  /** As written, `setText` never cancels an earlier start. Setting the same
      overflowing text twice leaves two starts pending. Once both have run,
      the label shows only the second scroll, and two completion chains are
      pending: the first one, whose scroll the second start replaced, at
      once. When the scroll lasts longer than `endDelay`, the snap of that
      first chain removes the second scroll before it reaches its end: the
      label jumps back to 0 and the second chain's completion comes due. */
  lemma {:induction false} RepeatedSetTextDuplicatesStarts(text: string, width: real, containerWidth: real)
    requires width > containerWidth
    ensures var e1 := AfterSetText(AfterSetText(Initial(), text, width, containerWidth), text, width, containerWidth);
      && e1.queue == [Event(Start, StartDelay), Event(Start, StartDelay)]
      && var duration := ScrollDuration(width - containerWidth);
      var e2 := AfterFire(AfterFire(e1, 0), 0);
      && e2.queue == [Event(Complete(0), StartDelay), Event(Complete(1), StartDelay + duration)]
      && e2.animation == Some(Scroll(0.0, -(width - containerWidth), duration, StartDelay))
      && e2.scroll == 1
      && (EndDelay < duration ==>
            var e4 := AfterFire(AfterFire(e2, 0), 1);
            && e4.now == StartDelay + EndDelay < StartDelay + duration
            && e4.animation == None
            && e4.queue == [Event(Complete(1), StartDelay + EndDelay),
                            Event(Restart, StartDelay + EndDelay + StartDelay)])
  {
    var e1 := AfterSetText(AfterSetText(Initial(), text, width, containerWidth), text, width, containerWidth);
    TwoStartsPending(text, width, containerWidth);
    SecondStartReplacesFirst(e1);
    var e2 := AfterFire(AfterFire(e1, 0), 0);
    if EndDelay < ScrollDuration(width - containerWidth) {
      FirstSnapCutsSecond(e2);
    }
  }

  /** Stages of `RepeatedSetTextDuplicatesStarts`. */
  lemma TwoStartsPending(text: string, width: real, containerWidth: real)
    requires width > containerWidth
    ensures var e1 := AfterSetText(AfterSetText(Initial(), text, width, containerWidth), text, width, containerWidth);
      && e1.queue == [Event(Start, StartDelay), Event(Start, StartDelay)]
      && e1 == Initial().(queue := e1.queue, text := text, textWidth := width, containerWidth := containerWidth)
  {
  }

  lemma SecondStartReplacesFirst(e1: Engine)
    requires e1.queue == [Event(Start, StartDelay), Event(Start, StartDelay)]
    requires e1.now == 0.0 && e1.animation == None && e1.nextScroll == 0
    requires e1.textWidth > e1.containerWidth
    ensures var duration := ScrollDuration(e1.textWidth - e1.containerWidth);
      var e2 := AfterFire(AfterFire(e1, 0), 0);
      && e2.queue == [Event(Complete(0), StartDelay), Event(Complete(1), StartDelay + duration)]
      && e2.animation == Some(Scroll(0.0, -(e1.textWidth - e1.containerWidth), duration, StartDelay))
      && e2.scroll == 1 && e2.now == StartDelay
  {
    var duration := ScrollDuration(e1.textWidth - e1.containerWidth);
    var f1 := AfterFire(e1, 0);
    assert RemoveAt(e1.queue, 0) == [Event(Start, StartDelay)];
    assert f1.queue == [Event(Start, StartDelay), Event(Complete(0), StartDelay + duration)];
    assert RemoveAt(f1.queue, 0) == [Event(Complete(0), StartDelay + duration)];
    assert Expedite([Event(Complete(0), StartDelay + duration)], 0, StartDelay)
      == [Event(Complete(0), StartDelay)];
  }

  lemma FirstSnapCutsSecond(e2: Engine)
    requires var duration := ScrollDuration(e2.textWidth - e2.containerWidth);
      && e2.queue == [Event(Complete(0), StartDelay), Event(Complete(1), StartDelay + duration)]
      && e2.animation.Some? && e2.scroll == 1 && e2.now == StartDelay
      && EndDelay < duration
    ensures var e4 := AfterFire(AfterFire(e2, 0), 1);
      && e4.now == StartDelay + EndDelay
      && e4.animation == None
      && e4.queue == [Event(Complete(1), StartDelay + EndDelay),
                      Event(Restart, StartDelay + EndDelay + StartDelay)]
  {
    var duration := ScrollDuration(e2.textWidth - e2.containerWidth);
    var f3 := AfterFire(e2, 0);
    assert RemoveAt(e2.queue, 0) == [Event(Complete(1), StartDelay + duration)];
    assert f3.queue == [Event(Complete(1), StartDelay + duration), Event(Snap, StartDelay + EndDelay)];
    assert RemoveAt(f3.queue, 1) == [Event(Complete(1), StartDelay + duration)];
    assert Expedite([Event(Complete(1), StartDelay + duration)], 1, StartDelay + EndDelay)
      == [Event(Complete(1), StartDelay + EndDelay)];
  }

  // ---------------------------------------------------------------------
  // The view

  class MarqueeView {
    var now: real
    var queue: seq<Event>
    var text: string
    var containerWidth: real
    var textWidth: real
    var animation: Option<Scroll>
    var scroll: nat
    var nextScroll: nat

    function State(): Engine
      reads this
    {
      Engine(now, queue, text, containerWidth, textWidth, animation, scroll, nextScroll)
    }

    ghost predicate Valid()
      reads this
    {
      Inv(State())
    }

    constructor ()
      ensures Valid() && State() == Initial()
    {
      now, queue, text := 0.0, [], "";
      containerWidth, textWidth := DefaultContainerWidth, 0.0;
      animation, scroll, nextScroll := None, 0, 0;
    }

    method SetText(newText: string, width: real, newContainerWidth: real)
      requires Valid()
      modifies this
      ensures Valid()
      ensures State() == AfterSetText(old(State()), newText, width, newContainerWidth)
    {
      if width <= newContainerWidth {
        SetTextWhenFits(State(), newText, width, newContainerWidth);
      } else {
        SetTextWhenOverflows(State(), newText, width, newContainerWidth);
      }
      containerWidth := newContainerWidth;
      text := newText;
      textWidth := width;
      RemoveAllAnimations();
      if textWidth <= containerWidth {
        return;
      }
      queue := queue + [Event(Start, now + StartDelay)];
    }

    /** Time passes on the main queue without reaching any pending event. */
    method Advance(t: real)
      requires Valid()
      requires now <= t
      requires forall j :: 0 <= j < |queue| ==> t <= queue[j].due
      modifies this
      ensures Valid()
      ensures State() == old(State()).(now := t)
    {
      now := t;
    }

    /** The main queue runs its earliest pending event. */
    method Fire(i: nat)
      requires Valid() && i < |queue|
      requires forall j :: 0 <= j < |queue| ==> queue[i].due <= queue[j].due
      modifies this
      ensures Valid()
      ensures State() == AfterFire(old(State()), i)
    {
      FireKeepsInv(State(), i);
      var ev := queue[i];
      queue := RemoveAt(queue, i);
      now := Max(now, ev.due);
      match ev.kind
      case Start => StartSmoothMarquee();
      case Restart => StartSmoothMarquee();
      case Complete(_) => queue := queue + [Event(Snap, now + EndDelay)];
      case Snap =>
        RemoveAllAnimations();
        queue := queue + [Event(Restart, now + StartDelay)];
    }

    /** `removeAllAnimations` on the label's layer. */
    method RemoveAllAnimations()
      modifies this
      ensures State() == RemoveScroll(old(State()))
    {
      if animation.Some? {
        queue := Expedite(queue, scroll, now);
        animation := None;
      }
    }

    method StartSmoothMarquee()
      modifies this
      ensures State() == AfterStartSmooth(old(State()))
    {
      if textWidth <= containerWidth {
        return;
      }
      var distance := ScrollDistance(textWidth, containerWidth);
      var duration := ScrollDuration(distance);
      var id := nextScroll;
      RemoveAllAnimations();
      animation := Some(Scroll(0.0, -distance, duration, now));
      scroll, nextScroll := id, id + 1;
      queue := queue + [Event(Complete(id), now + duration)];
    }
  }
}
