/** The marquee view of the `spocon` target. It measures its text; when the
    text fits it shows it still, left-aligned; otherwise it runs the cycle
    wait `startDelay`, scroll linearly to the end, wait `endDelay`, snap back,
    and again. Deferred work is a queue of work items on a logical clock:
    `asyncAfter` appends an item, `cancel()` marks it, and a marked item does
    nothing when it comes due. The view keeps two handles on its items,
    `startWorkItem` and `restartWorkItem`, and cancels both whenever new text
    arrives or the marquee is stopped.

    `Engine` is the view's state as a value and the `After...` functions say
    what each operation makes of it; the class `MarqueeView` at the end holds
    the same state in fields and its methods are proved to follow those
    functions. */
module SpoconMarquee {
  import opened Common

  const SpeedPointsPerSecond: real := 60.0
  /** Extra scroll distance, so that rounding never clips the last glyph. */
  const Epsilon: real := 1.0
  const DefaultContainerWidth: real := 200.0
  const DefaultStartDelay: real := 1.0
  const DefaultEndDelay: real := 2.0

  /** What a scheduled closure does: `Start` is the item `setText` schedules,
      `Reload` snaps the label back after a scroll, `Restart` begins the next
      scroll. `Start` and `Restart` both run `startMarqueeIfNeeded`; they
      differ in the handle that holds them. */
  datatype Kind = Start | Reload | Restart

  datatype WorkItem = WorkItem(id: nat, kind: Kind, due: real, cancelled: bool)

  /** A pending timer as an observer sees it: when it fires and what it does. */
  datatype Timer = Timer(kind: Kind, due: real)

  /** The lifecycle phases of the marquee. */
  datatype Phase = Idle | WaitingToStart | Scrolling | WaitingAtEnd

  datatype Engine = Engine(
    alive: bool,                  // false once the view is gone: `[weak self]` is nil
    now: real,                    // the main queue's clock
    queue: seq<WorkItem>,         // items passed to `asyncAfter` that have not run yet
    nextId: nat,
    startWorkItem: Option<nat>,
    restartWorkItem: Option<nat>,
    text: string,                 // the label's string value
    containerWidth: real,
    visibleWidth: real,           // `bounds.width` of the view
    textWidth: real,
    startDelay: real,
    endDelay: real,
    animation: Option<Scroll>)    // the translation animation on the label's layer

  /** A view just created with a frame `frameWidth` wide. */
  function Initial(frameWidth: real): Engine
  {
    Engine(true, 0.0, [], 0, None, None, "", DefaultContainerWidth, frameWidth, 0.0,
           DefaultStartDelay, DefaultEndDelay, None)
  }

  // ---------------------------------------------------------------------
  // Measurement and the scroll geometry

  /** The width `measureTextWidth` reports for a line whose typographic width
      is `typographic`: rounded up to a whole number of points. */
  function MeasureTextWidth(typographic: real): (w: real)
    ensures w == w.Floor as real
    ensures typographic <= w < typographic + 1.0
  {
    if typographic.Floor as real == typographic then typographic
    else (typographic.Floor + 1) as real
  }

  /** How far the label moves so that its right edge passes the visible
      bounds by `Epsilon`. */
  function ScrollDistance(textWidth: real, visibleWidth: real): (d: real)
    ensures textWidth > visibleWidth ==> d > Epsilon
  {
    textWidth - visibleWidth + Epsilon
  }

  function ScrollDuration(distance: real): real
  {
    distance / SpeedPointsPerSecond
  }

  /** One full turn of the cycle: wait, scroll, wait at the end. */
  function CyclePeriod(e: Engine): real
  {
    e.startDelay + ScrollDuration(ScrollDistance(e.textWidth, e.visibleWidth)) + e.endDelay
  }

  // ---------------------------------------------------------------------
  // The work-item queue

  function RemoveAt(q: seq<WorkItem>, i: nat): seq<WorkItem>
    requires i < |q|
  {
    q[..i] + q[i + 1..]
  }

  /** The items that will still do something when they come due. */
  function Live(q: seq<WorkItem>): (r: seq<WorkItem>)
    ensures |r| <= |q|
  {
    if q == [] then []
    else (if q[0].cancelled then [] else [q[0]]) + Live(q[1..])
  }

  function TimersOf(l: seq<WorkItem>): seq<Timer>
  {
    if l == [] then [] else [Timer(l[0].kind, l[0].due)] + TimersOf(l[1..])
  }

  function Timers(q: seq<WorkItem>): seq<Timer>
  {
    TimersOf(Live(q))
  }

  /** `handle?.cancel()`: mark the item the handle refers to. */
  function Cancel(q: seq<WorkItem>, handle: Option<nat>): (r: seq<WorkItem>)
    ensures |r| == |q|
  {
    if q == [] then []
    else [if handle == Some(q[0].id) then q[0].(cancelled := true) else q[0]] + Cancel(q[1..], handle)
  }

  /** The items of `l` other than the one `handle` refers to. */
  function Drop(l: seq<WorkItem>, handle: Option<nat>): seq<WorkItem>
  {
    if l == [] then []
    else (if handle == Some(l[0].id) then [] else [l[0]]) + Drop(l[1..], handle)
  }

  /** Whether the handle for an item of this kind refers to it. */
  predicate Tracked(e: Engine, x: WorkItem)
  {
    if x.kind == Start then e.startWorkItem == Some(x.id) else e.restartWorkItem == Some(x.id)
  }

  /** What the view keeps true between calls: at most one item is live, the
      handle for its kind refers to it, the scroll animation is attached
      exactly while the live item is a `Reload`, and a live view with nothing
      pending shows no animation. */
  ghost predicate Inv(e: Engine)
  {
    var l := Live(e.queue);
    && |l| <= 1
    && (l != [] ==> Tracked(e, l[0]) && (l[0].kind == Reload <==> e.animation.Some?))
    && (e.alive && l == [] ==> e.animation.None?)
    && (e.animation.Some? ==> e.animation.value.duration > 0.0)
  }

  function PhaseAt(e: Engine, t: real): Phase
  {
    var l := Live(e.queue);
    if !e.alive || l == [] then Idle
    else if l[0].kind != Reload then WaitingToStart
    else if e.animation.Some? && t < e.animation.value.began + e.animation.value.duration then Scrolling
    else WaitingAtEnd
  }

  /** Everything an observer can tell about the view: no item identities,
      no handles, no cancelled items. */
  datatype Snapshot = Snapshot(
    alive: bool, now: real, text: string, containerWidth: real, visibleWidth: real,
    textWidth: real, startDelay: real, endDelay: real, animation: Option<Scroll>,
    timers: seq<Timer>)

  function Observe(e: Engine): Snapshot
  {
    Snapshot(e.alive, e.now, e.text, e.containerWidth, e.visibleWidth, e.textWidth,
             e.startDelay, e.endDelay, e.animation, Timers(e.queue))
  }

  // ---------------------------------------------------------------------
  // The operations, as functions of the state

  /** `startWorkItem?.cancel()`, `restartWorkItem?.cancel()`, and both
      handles set to nil. */
  function AfterCancelPending(e: Engine): Engine
  {
    e.(queue := Cancel(Cancel(e.queue, e.startWorkItem), e.restartWorkItem),
       startWorkItem := None, restartWorkItem := None)
  }

  /** A `Start` scheduled after `startDelay` and held by `startWorkItem`. */
  function WithStart(e: Engine): Engine
  {
    var item := WorkItem(e.nextId, Start, e.now + e.startDelay, false);
    e.(queue := e.queue + [item], nextId := e.nextId + 1, startWorkItem := Some(item.id))
  }

  /** `setText`: cancel both handles, measure, reset the layer, and schedule a
      `Start` after `startDelay` if the text does not fit `containerWidth`. */
  function AfterSetText(e: Engine, text: string, typographicWidth: real, containerWidth: real): Engine
  {
    var e1 := AfterCancelPending(e).(containerWidth := containerWidth, text := text,
                                     textWidth := MeasureTextWidth(typographicWidth), animation := None);
    if e1.textWidth <= e1.containerWidth then e1 else WithStart(e1)
  }

  function AfterSetDelays(e: Engine, start: real, end: real): Engine
  {
    e.(startDelay := start, endDelay := end)
  }

  /** `stopMarquee`: cancel both handles and remove the animation. */
  function AfterStop(e: Engine): Engine
  {
    AfterCancelPending(e).(animation := None)
  }

  /** The owner sets the view's frame. */
  function AfterResize(e: Engine, width: real): Engine
  {
    e.(visibleWidth := width)
  }

  /** `startMarqueeIfNeeded`: when the text overflows the visible bounds,
      animate to `-distance` and schedule the `Reload` after the scroll and
      `endDelay`, held by `restartWorkItem`. */
  function AfterStartMarqueeIfNeeded(e: Engine): Engine
  {
    if e.textWidth <= e.visibleWidth then e
    else
      var distance := ScrollDistance(e.textWidth, e.visibleWidth);
      var duration := ScrollDuration(distance);
      var item := WorkItem(e.nextId, Reload, e.now + duration + e.endDelay, false);
      e.(animation := Some(Scroll(0.0, -distance, duration, e.now)),
         queue := e.queue + [item], nextId := e.nextId + 1, restartWorkItem := Some(item.id))
  }

  /** The `reload` closure: snap back and schedule `Restart` after
      `startDelay`, replacing `restartWorkItem`. */
  function AfterReload(e: Engine): Engine
  {
    var item := WorkItem(e.nextId, Restart, e.now + e.startDelay, false);
    e.(animation := None, queue := e.queue + [item], nextId := e.nextId + 1,
       restartWorkItem := Some(item.id))
  }

  /** The main queue runs item `i`: it leaves the queue and the clock reaches
      its due time; a cancelled item, or any item of a view that is gone,
      does nothing more. */
  function AfterFire(e: Engine, i: nat): Engine
    requires i < |e.queue|
  {
    var item := e.queue[i];
    var e1 := e.(queue := RemoveAt(e.queue, i), now := Max(e.now, item.due));
    if !e.alive || item.cancelled then e1
    else if item.kind == Reload then AfterReload(e1)
    else AfterStartMarqueeIfNeeded(e1)
  }

  // ---------------------------------------------------------------------
  // Lemmas about the queue

  lemma {:induction false} LiveConcat(a: seq<WorkItem>, b: seq<WorkItem>)
    ensures Live(a + b) == Live(a) + Live(b)
  {
    if a != [] {
      assert a + b != [] && (a + b)[0] == a[0];
      assert (a + b)[1..] == a[1..] + b;
      LiveConcat(a[1..], b);
      var h := if a[0].cancelled then [] else [a[0]];
      assert Live(a + b) == h + (Live(a[1..]) + Live(b));
      assert h + (Live(a[1..]) + Live(b)) == (h + Live(a[1..])) + Live(b);
    } else {
      assert a + b == b;
    }
  }

  lemma LiveAppend(q: seq<WorkItem>, x: WorkItem)
    requires !x.cancelled
    ensures Live(q + [x]) == Live(q) + [x]
  {
    LiveConcat(q, [x]);
    assert Live([x]) == [x] by {
      assert [x][1..] == [];
    }
  }

  /** Taking an item out of the queue takes it out of the live items if it
      was live, and changes nothing else among them. */
  lemma LiveRemoveAt(q: seq<WorkItem>, i: nat)
    requires i < |q|
    ensures q[i].cancelled ==> Live(RemoveAt(q, i)) == Live(q)
    ensures !q[i].cancelled ==> |Live(RemoveAt(q, i))| == |Live(q)| - 1
    ensures !q[i].cancelled && |Live(q)| <= 1 ==> Live(q) == [q[i]] && Live(RemoveAt(q, i)) == []
  {
    var a, x, b := q[..i], q[i], q[i + 1..];
    assert q == a + ([x] + b);
    LiveConcat(a, [x] + b);
    LiveConcat([x], b);
    LiveConcat(a, b);
    assert Live([x]) == if x.cancelled then [] else [x] by {
      assert [x][1..] == [];
    }
  }

  /** A live item splits the live items in two: those before it and those
      after it. Running it leaves exactly those two parts, in order. */
  lemma LiveRemoveAtSplits(q: seq<WorkItem>, i: nat)
    requires i < |q| && !q[i].cancelled
    ensures Live(q) == Live(q[..i]) + ([q[i]] + Live(q[i + 1..]))
    ensures Live(RemoveAt(q, i)) == Live(q[..i]) + Live(q[i + 1..])
  {
    assert q == q[..i] + ([q[i]] + q[i + 1..]);
    LiveAround(q[..i], q[i], q[i + 1..]);
    LiveConcat(q[..i], q[i + 1..]);
  }

  /** `Live` of a live item between two runs of items. */
  lemma LiveAround(a: seq<WorkItem>, x: WorkItem, b: seq<WorkItem>)
    requires !x.cancelled
    ensures Live(a + ([x] + b)) == Live(a) + ([x] + Live(b))
  {
    LiveConcat(a, [x] + b);
    LiveConcat([x], b);
    assert Live([x]) == [x] by {
      assert [x][1..] == [];
    }
  }

  lemma {:induction false} DropConcat(a: seq<WorkItem>, b: seq<WorkItem>, handle: Option<nat>)
    ensures Drop(a + b, handle) == Drop(a, handle) + Drop(b, handle)
  {
    if a != [] {
      assert a + b != [] && (a + b)[0] == a[0];
      assert (a + b)[1..] == a[1..] + b;
      DropConcat(a[1..], b, handle);
      var h := if handle == Some(a[0].id) then [] else [a[0]];
      assert h + (Drop(a[1..], handle) + Drop(b, handle)) == (h + Drop(a[1..], handle)) + Drop(b, handle);
    } else {
      assert a + b == b;
    }
  }

  /** Cancelling through a handle takes the item it refers to out of the
      live items and leaves the others live, in order. Safe when the handle
      is nil or its item already ran. */
  lemma {:induction false} CancelLive(q: seq<WorkItem>, handle: Option<nat>)
    ensures Live(Cancel(q, handle)) == Drop(Live(q), handle)
  {
    if q != [] {
      var c := Cancel(q, handle);
      CancelLive(q[1..], handle);
      assert c[0] == (if handle == Some(q[0].id) then q[0].(cancelled := true) else q[0]);
      assert c[1..] == Cancel(q[1..], handle);
      var h := if q[0].cancelled then [] else [q[0]];
      DropConcat(h, Live(q[1..]), handle);
      assert Drop(h, handle) == (if q[0].cancelled || handle == Some(q[0].id) then [] else [q[0]]) by {
        if h != [] {
          assert h[1..] == [];
        }
      }
    }
  }

  /** Cancelling both handles of a view in its invariant leaves no live item. */
  lemma CancelBothClears(e: Engine)
    requires Inv(e)
    ensures Live(Cancel(Cancel(e.queue, e.startWorkItem), e.restartWorkItem)) == []
  {
    var q1 := Cancel(e.queue, e.startWorkItem);
    CancelLive(e.queue, e.startWorkItem);
    CancelLive(q1, e.restartWorkItem);
    var l := Live(e.queue);
    if l != [] {
      assert l == [l[0]];
      assert l[1..] == [];
      var d := Drop(l, e.startWorkItem);
      if d != [] {
        assert d == [l[0]];
        assert d[1..] == [];
      }
    }
  }

  lemma TimersOfOne(q: seq<WorkItem>, x: WorkItem)
    requires Live(q) == [x]
    ensures Timers(q) == [Timer(x.kind, x.due)]
  {
    assert [x][1..] == [];
    assert TimersOf([x]) == [Timer(x.kind, x.due)] + TimersOf([]);
  }

  // ---------------------------------------------------------------------
  // setText, setDelays, stopMarquee

  /** Text that fits `containerWidth` once measured leaves nothing pending,
      no animation, both handles nil and the view idle, whatever was pending
      before. */
  lemma SetTextWhenFits(e: Engine, text: string, typographicWidth: real, containerWidth: real)
    requires Inv(e)
    requires MeasureTextWidth(typographicWidth) <= containerWidth
    ensures var r := AfterSetText(e, text, typographicWidth, containerWidth);
      && Inv(r)
      && r.startWorkItem == None && r.restartWorkItem == None
      && Timers(r.queue) == [] && r.animation == None
      && r.textWidth == MeasureTextWidth(typographicWidth) && r.containerWidth == containerWidth
      && r.text == text
      && (forall t :: PhaseAt(r, t) == Idle && OffsetAt(r.animation, t) == 0.0)
  {
    CancelBothClears(e);
  }

  /** Text that overflows `containerWidth` leaves exactly one live item: a
      `Start` due `startDelay` from now, held by `startWorkItem`, with
      `restartWorkItem` nil. */
  lemma SetTextWhenOverflows(e: Engine, text: string, typographicWidth: real, containerWidth: real)
    requires Inv(e)
    requires MeasureTextWidth(typographicWidth) > containerWidth
    ensures var r := AfterSetText(e, text, typographicWidth, containerWidth);
      && Inv(r)
      && Live(r.queue) == [WorkItem(e.nextId, Start, e.now + e.startDelay, false)]
      && Timers(r.queue) == [Timer(Start, e.now + e.startDelay)]
      && r.startWorkItem == Some(e.nextId) && r.restartWorkItem == None
      && r.animation == None && r.now == e.now
      && (forall t :: OffsetAt(r.animation, t) == 0.0)
      && (e.alive ==> forall t :: PhaseAt(r, t) == WaitingToStart)
  {
    CancelBothClears(e);
    var r := AfterSetText(e, text, typographicWidth, containerWidth);
    var q := Cancel(Cancel(e.queue, e.startWorkItem), e.restartWorkItem);
    var item := WorkItem(e.nextId, Start, e.now + e.startDelay, false);
    assert r.queue == q + [item];
    LiveAppend(q, item);
    var rq := r.queue;
    assert Live(rq) == [item];
    TimersOfOne(rq, item);
    assert Inv(r);
  }

  /** What `setText` leaves behind does not depend on what was pending or
      showing before: two views that agree on their clock, bounds and delays
      look the same after the same call. In particular a call in the middle
      of a scroll gives what the call gives on an idle view. */
  lemma SetTextForgetsHistory(e1: Engine, e2: Engine, text: string, typographicWidth: real, containerWidth: real)
    requires Inv(e1) && Inv(e2)
    requires e1.alive == e2.alive && e1.now == e2.now && e1.visibleWidth == e2.visibleWidth
    requires e1.startDelay == e2.startDelay && e1.endDelay == e2.endDelay
    ensures Observe(AfterSetText(e1, text, typographicWidth, containerWidth))
         == Observe(AfterSetText(e2, text, typographicWidth, containerWidth))
  {
    if MeasureTextWidth(typographicWidth) <= containerWidth {
      SetTextWhenFits(e1, text, typographicWidth, containerWidth);
      SetTextWhenFits(e2, text, typographicWidth, containerWidth);
    } else {
      SetTextWhenOverflows(e1, text, typographicWidth, containerWidth);
      SetTextWhenOverflows(e2, text, typographicWidth, containerWidth);
    }
  }

  /** Calling `setText` twice with the same arguments looks like calling it
      once: no second timer. */
  lemma SetTextIdempotent(e: Engine, text: string, typographicWidth: real, containerWidth: real)
    requires Inv(e)
    ensures var once := AfterSetText(e, text, typographicWidth, containerWidth);
      && Observe(AfterSetText(once, text, typographicWidth, containerWidth)) == Observe(once)
      && |Timers(AfterSetText(once, text, typographicWidth, containerWidth).queue)| <= 1
  {
    var once := AfterSetText(e, text, typographicWidth, containerWidth);
    if MeasureTextWidth(typographicWidth) <= containerWidth {
      SetTextWhenFits(e, text, typographicWidth, containerWidth);
      SetTextWhenFits(once, text, typographicWidth, containerWidth);
    } else {
      SetTextWhenOverflows(e, text, typographicWidth, containerWidth);
      SetTextWhenOverflows(once, text, typographicWidth, containerWidth);
    }
  }

  /** `stopMarquee` leaves nothing pending, both handles nil, no animation:
      the label is back at offset 0 and the view idle. */
  lemma StopCancelsEverything(e: Engine)
    requires Inv(e)
    ensures var r := AfterStop(e);
      && Inv(r) && Timers(r.queue) == []
      && r.startWorkItem == None && r.restartWorkItem == None && r.animation == None
      && (forall t :: PhaseAt(r, t) == Idle && OffsetAt(r.animation, t) == 0.0)
  {
    CancelBothClears(e);
  }

  /** New delays do not move a timer already pending; the next one scheduled
      uses them. */
  lemma DelaysApplyToLaterScheduling(e: Engine, start: real, end: real, text: string, typographicWidth: real, containerWidth: real)
    requires Inv(e)
    requires MeasureTextWidth(typographicWidth) > containerWidth
    ensures Timers(AfterSetDelays(e, start, end).queue) == Timers(e.queue)
    ensures Timers(AfterSetText(AfterSetDelays(e, start, end), text, typographicWidth, containerWidth).queue)
         == [Timer(Start, e.now + start)]
  {
    SetTextWhenOverflows(AfterSetDelays(e, start, end), text, typographicWidth, containerWidth);
  }

  // ---------------------------------------------------------------------
  // The cycle

  /** Every operation keeps the invariant. */
  lemma FireKeepsInv(e: Engine, i: nat)
    requires Inv(e) && i < |e.queue|
    ensures Inv(AfterFire(e, i))
  {
    var item := e.queue[i];
    var rest := RemoveAt(e.queue, i);
    LiveRemoveAt(e.queue, i);
    var e1 := e.(queue := rest, now := Max(e.now, item.due));
    if e.alive && !item.cancelled {
      if item.kind == Reload {
        LiveAppend(rest, WorkItem(e1.nextId, Restart, e1.now + e1.startDelay, false));
      } else if e1.textWidth > e1.visibleWidth {
        var d := ScrollDuration(ScrollDistance(e1.textWidth, e1.visibleWidth));
        LiveAppend(rest, WorkItem(e1.nextId, Reload, e1.now + d + e1.endDelay, false));
      }
    }
  }

  lemma SetTextKeepsInv(e: Engine, text: string, typographicWidth: real, containerWidth: real)
    requires Inv(e)
    ensures Inv(AfterSetText(e, text, typographicWidth, containerWidth))
  {
    if MeasureTextWidth(typographicWidth) <= containerWidth {
      SetTextWhenFits(e, text, typographicWidth, containerWidth);
    } else {
      SetTextWhenOverflows(e, text, typographicWidth, containerWidth);
    }
  }

  /** Whether item `i` is the live item that starts a scroll when it fires. */
  predicate StartsScroll(e: Engine, i: nat)
  {
    i < |e.queue| && !e.queue[i].cancelled && e.queue[i].kind != Reload
  }

  /** A live `Start` or `Restart` that fires when the text fits the visible
      bounds does nothing: the cycle ends and the view is idle. The fit test
      here uses `bounds.width`, not the `containerWidth` that `setText` used. */
  lemma StartWhenTextFitsBounds(e: Engine, i: nat)
    requires Inv(e) && e.alive && StartsScroll(e, i)
    requires e.textWidth <= e.visibleWidth
    ensures var r := AfterFire(e, i);
      && Inv(r) && Timers(r.queue) == [] && r.animation == None
      && (forall t :: PhaseAt(r, t) == Idle)
  {
    FireKeepsInv(e, i);
    LiveRemoveAt(e.queue, i);
  }

  /** With the default speed, a 500-point text in 200-point bounds scrolls
      301 points in 301/60 seconds, and the reload comes due `endDelay`
      after the scroll ends. */
  lemma ScrollExample(e: Engine)
    requires e.textWidth == 500.0 && e.visibleWidth == 200.0
    ensures var r := AfterStartMarqueeIfNeeded(e);
      && r.animation == Some(Scroll(0.0, -301.0, 301.0 / 60.0, e.now))
      && r.queue == e.queue + [WorkItem(e.nextId, Reload, e.now + 301.0 / 60.0 + e.endDelay, false)]
      && r.restartWorkItem == Some(e.nextId) && r.startWorkItem == e.startWorkItem
  {
  }

  /** The live `Start` (or `Restart`) due at `d` fires while the text
      overflows the visible bounds: the label scrolls linearly from 0 to
      `-distance`, with distance = textWidth - visibleWidth + 1, over
      distance / speed, and the only timer is the `Reload` due after the
      scroll and `endDelay`, held by `restartWorkItem`. */
  lemma {:induction false} StartFires(e: Engine, i: nat)
    requires Inv(e) && e.alive && StartsScroll(e, i)
    requires e.textWidth > e.visibleWidth && e.now <= e.queue[i].due
    ensures var d := e.queue[i].due;
      var distance := ScrollDistance(e.textWidth, e.visibleWidth);
      var duration := ScrollDuration(distance);
      var r := AfterFire(e, i);
      var reload := WorkItem(e.nextId, Reload, d + duration + e.endDelay, false);
      && Inv(r) && r.now == d
      && r.animation == Some(Scroll(0.0, -distance, duration, d))
      && r.queue == RemoveAt(e.queue, i) + [reload] && Live(r.queue) == [reload]
      && r.restartWorkItem == Some(reload.id)
      && Timers(r.queue) == [Timer(Reload, d + duration + e.endDelay)]
      && (forall t :: d <= t < d + duration ==> PhaseAt(r, t) == Scrolling)
      && (forall t :: d + duration <= t ==> PhaseAt(r, t) == WaitingAtEnd)
  {
    var item := e.queue[i];
    var d := item.due;
    var duration := ScrollDuration(ScrollDistance(e.textWidth, e.visibleWidth));
    LiveRemoveAt(e.queue, i);
    var rest := RemoveAt(e.queue, i);
    var r := AfterFire(e, i);
    var reload := WorkItem(e.nextId, Reload, d + duration + e.endDelay, false);
    assert r.queue == rest + [reload];
    LiveAppend(rest, reload);
    TimersOfOne(r.queue, reload);
    FireKeepsInv(e, i);
    ScrollPhases(r);
  }

  /** While the `Reload` is pending the label is scrolling until the
      animation ends and waits at the end afterwards. */
  lemma ScrollPhases(e: Engine)
    requires Inv(e) && e.alive && e.animation.Some?
    ensures var s := e.animation.value;
      forall t :: s.began <= t < s.began + s.duration ==> PhaseAt(e, t) == Scrolling
    ensures var s := e.animation.value;
      forall t :: s.began + s.duration <= t ==> PhaseAt(e, t) == WaitingAtEnd
  {
  }

  /** The live `Reload` fires: the label snaps back to 0 and the only timer
      is a `Restart` due `startDelay` later, held by `restartWorkItem`. */
  lemma {:induction false} ReloadFires(e: Engine, j: nat)
    requires Inv(e) && e.alive && j < |e.queue|
    requires !e.queue[j].cancelled && e.queue[j].kind == Reload && e.now <= e.queue[j].due
    ensures var d := e.queue[j].due;
      var r := AfterFire(e, j);
      var restart := WorkItem(e.nextId, Restart, d + e.startDelay, false);
      && Inv(r) && r.now == d && r.animation == None
      && r.queue == RemoveAt(e.queue, j) + [restart] && Live(r.queue) == [restart]
      && r.restartWorkItem == Some(restart.id)
      && Timers(r.queue) == [Timer(Restart, d + e.startDelay)]
      && (forall t :: PhaseAt(r, t) == WaitingToStart)
  {
    var d := e.queue[j].due;
    LiveRemoveAt(e.queue, j);
    var rest := RemoveAt(e.queue, j);
    FireKeepsInv(e, j);
    var r := AfterFire(e, j);
    var restart := WorkItem(e.nextId, Restart, d + e.startDelay, false);
    assert r.queue == rest + [restart];
    LiveAppend(rest, restart);
    TimersOfOne(r.queue, restart);
  }

  /** One turn of the cycle: the start fires and scrolls, the reload fires
      one scroll and one `endDelay` later, and the only timer is then a
      `Restart` due one `CyclePeriod` after the start. The view is again in
      the state this lemma starts from, with the same text and bounds, so
      the cycle repeats until something intervenes. */
  lemma {:induction false} CycleRepeats(e: Engine, i: nat)
    requires Inv(e) && e.alive && StartsScroll(e, i)
    requires e.textWidth > e.visibleWidth
    requires e.now <= e.queue[i].due && 0.0 <= e.endDelay
    ensures var e1 := AfterFire(e, i);
      && 0 < |e1.queue|
      && var e2 := AfterFire(e1, |e1.queue| - 1);
      && Inv(e2) && e2.alive && e2.animation == None
      && Timers(e2.queue) == [Timer(Restart, e.queue[i].due + CyclePeriod(e))]
      && StartsScroll(e2, |e2.queue| - 1)
      && e2.queue[|e2.queue| - 1].due == e.queue[i].due + CyclePeriod(e)
      && (e2.now <= e2.queue[|e2.queue| - 1].due <==> 0.0 <= e.startDelay)
      && e2.textWidth == e.textWidth && e2.visibleWidth == e.visibleWidth
      && e2.startDelay == e.startDelay && e2.endDelay == e.endDelay
  {
    StartFires(e, i);
    var e1 := AfterFire(e, i);
    var j := |e1.queue| - 1;
    var distance := ScrollDistance(e.textWidth, e.visibleWidth);
    assert distance > 0.0;
    assert ScrollDuration(distance) > 0.0;
    ReloadFires(e1, j);
  }

  /** Time never runs backwards, and a view that is gone ignores its items. */
  lemma FireOnGoneView(e: Engine, i: nat)
    requires i < |e.queue| && !e.alive
    ensures var r := AfterFire(e, i);
      && r.queue == RemoveAt(e.queue, i) && r.now >= e.now && r.now >= e.queue[i].due
      && r.animation == e.animation && r.text == e.text && r.nextId == e.nextId
  {
  }

  /** While waiting to start, and when idle, the label sits at offset 0. */
  lemma OffsetZeroUnlessScrolling(e: Engine, t: real)
    requires Inv(e) && e.alive
    requires PhaseAt(e, t) == Idle || PhaseAt(e, t) == WaitingToStart
    ensures OffsetAt(e.animation, t) == 0.0
  {
  }

  // ---------------------------------------------------------------------
  // The view

  class MarqueeView {
    var alive: bool
    var now: real
    var queue: seq<WorkItem>
    var nextId: nat
    var startWorkItem: Option<nat>
    var restartWorkItem: Option<nat>
    var text: string
    var containerWidth: real
    var visibleWidth: real
    var textWidth: real
    var startDelay: real
    var endDelay: real
    var animation: Option<Scroll>

    function State(): Engine
      reads this
    {
      Engine(alive, now, queue, nextId, startWorkItem, restartWorkItem, text,
             containerWidth, visibleWidth, textWidth, startDelay, endDelay, animation)
    }

    ghost predicate Valid()
      reads this
    {
      Inv(State())
    }

    constructor (frameWidth: real)
      ensures Valid() && State() == Initial(frameWidth)
    {
      alive, now, queue, nextId := true, 0.0, [], 0;
      startWorkItem, restartWorkItem := None, None;
      text := "";
      containerWidth, visibleWidth, textWidth := DefaultContainerWidth, frameWidth, 0.0;
      startDelay, endDelay := DefaultStartDelay, DefaultEndDelay;
      animation := None;
    }

    method SetText(newText: string, typographicWidth: real, newContainerWidth: real)
      requires Valid()
      modifies this
      ensures Valid()
      ensures State() == AfterSetText(old(State()), newText, typographicWidth, newContainerWidth)
    {
      ghost var e0 := State();
      SetTextKeepsInv(e0, newText, typographicWidth, newContainerWidth);
      CancelPending();
      containerWidth := newContainerWidth;
      text := newText;
      textWidth := MeasureTextWidth(typographicWidth);
      animation := None;
      ghost var e1 := AfterCancelPending(e0).(containerWidth := newContainerWidth, text := newText,
                                              textWidth := textWidth, animation := None);
      assert State() == e1;
      if textWidth > containerWidth {
        ScheduleStart();
      }
    }

    /** Cancel both work items and let go of both handles. */
    method CancelPending()
      modifies this
      ensures State() == AfterCancelPending(old(State()))
    {
      queue := Cancel(queue, startWorkItem);
      queue := Cancel(queue, restartWorkItem);
      startWorkItem := None;
      restartWorkItem := None;
    }

    /** Schedule a `Start` after `startDelay`, held by `startWorkItem`. */
    method ScheduleStart()
      modifies this
      ensures State() == WithStart(old(State()))
    {
      var item := WorkItem(nextId, Start, now + startDelay, false);
      startWorkItem := Some(item.id);
      queue, nextId := queue + [item], nextId + 1;
    }

    method SetDelays(start: real, end: real)
      requires Valid()
      modifies this
      ensures Valid()
      ensures State() == AfterSetDelays(old(State()), start, end)
    {
      startDelay := start;
      endDelay := end;
    }

    method StopMarquee()
      requires Valid()
      modifies this
      ensures Valid()
      ensures State() == AfterStop(old(State()))
    {
      StopCancelsEverything(State());
      CancelPending();
      animation := None;
    }

    /** The owner assigns a new frame. */
    method SetFrameWidth(width: real)
      requires Valid()
      modifies this
      ensures Valid()
      ensures State() == AfterResize(old(State()), width)
    {
      visibleWidth := width;
    }

    /** The owner lets go of the view; its pending closures find `self` nil. */
    method Release()
      requires Valid()
      modifies this
      ensures Valid()
      ensures State() == old(State()).(alive := false)
    {
      alive := false;
    }

    /** Time passes on the main queue without reaching any pending item. */
    method Advance(t: real)
      requires Valid()
      requires now <= t
      requires forall j :: 0 <= j < |queue| ==> t <= queue[j].due
      modifies this
      ensures Valid()
      ensures State() == old(State()).(now := t)
    {
      now := t;
    }

    /** The main queue runs its earliest pending item. */
    method Fire(i: nat)
      requires Valid() && i < |queue|
      requires forall j :: 0 <= j < |queue| ==> queue[i].due <= queue[j].due
      modifies this
      ensures Valid()
      ensures State() == AfterFire(old(State()), i)
    {
      FireKeepsInv(State(), i);
      var item := queue[i];
      queue := RemoveAt(queue, i);
      now := Max(now, item.due);
      if !alive || item.cancelled {
        return;
      }
      if item.kind == Reload {
        SnapBack();
      } else {
        StartMarqueeIfNeeded();
      }
    }

    method StartMarqueeIfNeeded()
      modifies this
      ensures State() == AfterStartMarqueeIfNeeded(old(State()))
    {
      if textWidth <= visibleWidth {
        return;
      }
      var distance := ScrollDistance(textWidth, visibleWidth);
      var duration := ScrollDuration(distance);
      animation := Some(Scroll(0.0, -distance, duration, now));
      var reload := WorkItem(nextId, Reload, now + duration + endDelay, false);
      restartWorkItem := Some(reload.id);
      queue, nextId := queue + [reload], nextId + 1;
    }

    /** The body of the `reload` work item. */
    method SnapBack()
      modifies this
      ensures State() == AfterReload(old(State()))
    {
      animation := None;
      var restart := WorkItem(nextId, Restart, now + startDelay, false);
      restartWorkItem := Some(restart.id);
      queue, nextId := queue + [restart], nextId + 1;
    }
  }
}
