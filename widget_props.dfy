/** Properties of the widget state machine over single steps and whole traces
    of events (templates/js/init_chat.js). */
module WidgetProps {
  import opened Text
  import opened Cookie
  import opened Widget

  // ------------------------------------------------------------------ counting auto-opens

  predicate IsAutoOpenEvent(name: string)
  {
    name == "gobot_scroll" || name == "gobot_timer"
  }

  /** How many auto-open reports an analytics log holds. */
  function AutoOpenCount(log: seq<string>): nat
  {
    if |log| == 0 then 0
    else AutoOpenCount(log[..|log| - 1]) + (if IsAutoOpenEvent(log[|log| - 1]) then 1 else 0)
  }

  lemma AutoOpenCountAppend(log: seq<string>, name: string)
    ensures AutoOpenCount(log + [name]) == AutoOpenCount(log) + (if IsAutoOpenEvent(name) then 1 else 0)
  {
    assert (log + [name])[..|log|] == log;
  }

  /** Writing the dismissal cookie makes `wasChatClosedByUser()` true,
      whatever the jar held. */
  lemma DismissalReadsBack(jar: string)
    ensures ClosedIn(WithDismissal(jar))
  {
    StoreThenRead(jar, CHAT_CLOSED_COOKIE, "true");
  }

  // ------------------------------------------------------------------ invariants

  /** The document listeners match the session flags. */
  predicate ListenersInv(s: WidgetState)
  {
    var l := s.dom.listeners;
    (s.drag.isDragging <==> HandleDragListener in l) && (HandleDragListener in l <==> StopDragListener in l)
    && (s.resize.isResizing <==> HandleResizeListener in l) && (HandleResizeListener in l <==> StopResizeListener in l)
    && (s.resize.isResizing <==> s.resize.currentResizer.Some?)
  }

  /** At most one throttled check is pending, exactly while `scrollTimeout` is
      set. */
  predicate ThrottleInv(s: WidgetState)
  {
    s.timers[ThrottledCheck] == if s.scroll.timeoutPending then 1 else 0
  }

  /** The gate flag records exactly whether an auto-open was ever reported. */
  predicate GateInv(s: WidgetState)
  {
    AutoOpenCount(s.browser.dataLayer) == if s.autoOpenTriggered then 1 else 0
  }

  /** What one step may do: to the analytics log and the gate, nothing, report
      a manual open, or pass the gate (only while it is open, the panel is
      closed and no dismissal is recorded) and report the trigger; to the
      cookie jar, nothing but write the dismissal cookie. It keeps the listener
      and throttle invariants. */
  predicate StepOk(s: WidgetState, r: WidgetState)
  {
    var log, log' := s.browser.dataLayer, r.browser.dataLayer;
    ((log' == log && r.autoOpenTriggered == s.autoOpenTriggered)
     || (log' == log + ["gobot_click"] && r.autoOpenTriggered == s.autoOpenTriggered)
     || (!s.autoOpenTriggered && r.autoOpenTriggered && !s.isChatOpen && !WasClosed(s)
         && (log' == log + ["gobot_scroll"] || log' == log + ["gobot_timer"])))
    && (r.browser.cookieJar == s.browser.cookieJar || r.browser.cookieJar == WithDismissal(s.browser.cookieJar))
    && (ListenersInv(s) ==> ListenersInv(r))
    && (ThrottleInv(s) ==> ThrottleInv(r))
  }

  lemma AutoOpenOk(s: WidgetState, trigger: string)
    requires trigger == "scroll" || trigger == "timer"
    ensures StepOk(s, AutoOpen(s, trigger))
  {
    assert "gobot_" + "scroll" == "gobot_scroll";
    assert "gobot_" + "timer" == "gobot_timer";
  }

  lemma PressOk(s: WidgetState, target: PressTarget, x: int, y: int, l: int, t: int)
    ensures StepOk(s, Press(s, target, x, y, l, t))
  {
  }

  lemma InitResizeOk(s: WidgetState, d: string, x: int, y: int, w: int, h: int)
    ensures StepOk(s, InitResize(s, d, x, y, w, h))
  {
  }

  /** `r` differs from `s` at most in the panel's inline style. */
  predicate StyleOnly(s: WidgetState, r: WidgetState)
  {
    r == s.(dom := s.dom.(style := r.dom.style))
  }

  lemma HandlersTouchStyleOnly(s: WidgetState, x: int, y: int, v: Viewport, cw: int, ch: int)
    ensures StyleOnly(s, HandleDrag(s, x, y, v, cw, ch))
    ensures StyleOnly(s, HandleResize(s, x, y, v))
  {
  }

  lemma PointerMoveOk(s: WidgetState, x: int, y: int, v: Viewport, cw: int, ch: int)
    ensures StepOk(s, PointerMove(s, x, y, v, cw, ch))
  {
    var a := if HandleDragListener in s.dom.listeners then HandleDrag(s, x, y, v, cw, ch) else s;
    HandlersTouchStyleOnly(s, x, y, v, cw, ch);
    HandlersTouchStyleOnly(a, x, y, v, cw, ch);
    assert StyleOnly(s, PointerMove(s, x, y, v, cw, ch));
  }

  lemma PointerUpOk(s: WidgetState)
    ensures StepOk(s, PointerUp(s))
  {
  }

  lemma WindowScrollOk(s: WidgetState)
    ensures StepOk(s, WindowScroll(s))
  {
  }

  lemma CheckScrollOk(s: WidgetState, y: int, h: int, ih: int)
    ensures StepOk(s, CheckScroll(s, y, h, ih))
  {
    if !s.scroll.fired && !s.autoOpenTriggered && ScrollReached(y, h, ih) {
      AutoOpenOk(s.(scroll := s.scroll.(fired := true)), "scroll");
    }
  }

  lemma ThrottleElapsedOk(s: WidgetState, y: int, h: int, ih: int)
    ensures StepOk(s, ThrottleElapsed(s, y, h, ih))
  {
    if ThrottledCheck in s.timers {
      CheckScrollOk(s.(timers := s.timers - multiset{ThrottledCheck}), y, h, ih);
    }
  }

  lemma InitialCheckElapsedOk(s: WidgetState, y: int, h: int, ih: int)
    ensures StepOk(s, InitialCheckElapsed(s, y, h, ih))
  {
    if InitialCheck in s.timers {
      CheckScrollOk(s.(timers := s.timers - multiset{InitialCheck}), y, h, ih);
    }
  }

  lemma TimerElapsedOk(s: WidgetState)
    ensures StepOk(s, TimerElapsed(s))
  {
    if AutoOpenTimer in s.timers {
      AutoOpenOk(s.(timers := s.timers - multiset{AutoOpenTimer}), "timer");
    }
  }

  lemma LauncherClickOk(s: WidgetState)
    ensures StepOk(s, LauncherClick(s))
  {
  }

  lemma CloseClickOk(s: WidgetState, nowMs: int)
    ensures StepOk(s, CloseClick(s, nowMs))
  {
  }

  lemma OpenDelayOk(s: WidgetState)
    ensures StepOk(s, OpenDelayElapsed(s))
  {
  }

  lemma LauncherShowOk(s: WidgetState)
    ensures StepOk(s, LauncherShowElapsed(s))
  {
  }

  lemma CloseDelayOk(s: WidgetState)
    ensures StepOk(s, CloseDelayElapsed(s))
  {
  }

  lemma StepEffect(s: WidgetState, e: Event)
    ensures StepOk(s, Step(s, e))
  {
    match e
    case PointerDown(target, x, y, l, t) => PressOk(s, target, x, y, l, t);
    case ResizerDown(d, x, y, w, h) => InitResizeOk(s, d, x, y, w, h);
    case Move(x, y, v, cw, ch) => PointerMoveOk(s, x, y, v, cw, ch);
    case Up => PointerUpOk(s);
    case Scroll => WindowScrollOk(s);
    case ScrollCheck(y, h, ih) => ThrottleElapsedOk(s, y, h, ih);
    case InitialScrollCheck(y, h, ih) => InitialCheckElapsedOk(s, y, h, ih);
    case TimerFired => TimerElapsedOk(s);
    case LauncherClicked => LauncherClickOk(s);
    case CloseClicked(now) => CloseClickOk(s, now);
    case OpenDelay => OpenDelayOk(s);
    case LauncherShowDelay => LauncherShowOk(s);
    case CloseDelay => CloseDelayOk(s);
  }

  /** The three invariants together. */
  predicate Reachable(s: WidgetState)
  {
    GateInv(s) && ListenersInv(s) && ThrottleInv(s)
  }

  lemma StepKeepsReachable(s: WidgetState, e: Event)
    requires Reachable(s)
    ensures Reachable(Step(s, e))
    ensures s.autoOpenTriggered ==> Step(s, e).autoOpenTriggered
  {
    StepEffect(s, e);
    AutoOpenCountAppend(s.browser.dataLayer, "gobot_click");
    AutoOpenCountAppend(s.browser.dataLayer, "gobot_scroll");
    AutoOpenCountAppend(s.browser.dataLayer, "gobot_timer");
  }

  lemma {:induction false} RunKeepsReachable(s: WidgetState, es: seq<Event>)
    requires Reachable(s)
    ensures Reachable(Run(s, es))
    ensures s.autoOpenTriggered ==> Run(s, es).autoOpenTriggered
    decreases |es|
  {
    if |es| > 0 {
      StepKeepsReachable(s, es[0]);
      RunKeepsReachable(Step(s, es[0]), es[1..]);
    }
  }

  /** Page load starts in a reachable state. */
  lemma InitReachable(jar: string)
    ensures Reachable(Init(jar))
  {
    var s := Init(jar);
    assert s.browser.dataLayer == [];
    assert s.dom.listeners == {};
    assert !s.scroll.timeoutPending && s.timers[ThrottledCheck] == 0;
  }

  /** Every state reached from page load, by any interleaving of scrolls,
      timers, clicks, drags and resizes: the widget has auto-opened at most
      once, the gate flag says whether it has, at most one scroll check is
      queued, and the document listeners match the drag and resize flags. */
  lemma FromPageLoad(jar: string, es: seq<Event>)
    ensures var s := Run(Init(jar), es);
      AutoOpenCount(s.browser.dataLayer) <= 1
      && (s.autoOpenTriggered <==> AutoOpenCount(s.browser.dataLayer) == 1)
      && s.timers[ThrottledCheck] <= 1
      && ListenersInv(s)
  {
    InitReachable(jar);
    RunKeepsReachable(Init(jar), es);
    var s := Run(Init(jar), es);
    assert GateInv(s) && ThrottleInv(s) && ListenersInv(s);
  }

  // ------------------------------------------------------------------ dismissal

  /** Once the dismissal cookie reads "true", it keeps reading "true", the gate
      never passes and no auto-open is reported. */
  lemma StepKeepsDismissal(s: WidgetState, e: Event)
    requires WasClosed(s)
    ensures WasClosed(Step(s, e))
    ensures Step(s, e).autoOpenTriggered == s.autoOpenTriggered
    ensures AutoOpenCount(Step(s, e).browser.dataLayer) == AutoOpenCount(s.browser.dataLayer)
  {
    StepEffect(s, e);
    DismissalReadsBack(s.browser.cookieJar);
    AutoOpenCountAppend(s.browser.dataLayer, "gobot_click");
  }

  lemma {:induction false} DismissalSticky(s: WidgetState, es: seq<Event>)
    requires WasClosed(s)
    ensures WasClosed(Run(s, es))
    ensures Run(s, es).autoOpenTriggered == s.autoOpenTriggered
    ensures AutoOpenCount(Run(s, es).browser.dataLayer) == AutoOpenCount(s.browser.dataLayer)
    decreases |es|
  {
    if |es| > 0 {
      StepKeepsDismissal(s, es[0]);
      DismissalSticky(Step(s, es[0]), es[1..]);
    }
  }

  /** A page loaded with the dismissal cookie never auto-opens. */
  lemma DismissedPageNeverAutoOpens(jar: string, es: seq<Event>)
    requires ClosedIn(jar)
    ensures !Run(Init(jar), es).autoOpenTriggered
    ensures AutoOpenCount(Run(Init(jar), es).browser.dataLayer) == 0
  {
    DismissalSticky(Init(jar), es);
  }

  /** After the user closes the open panel, nothing that follows on the page
      produces an auto-open. */
  lemma NoAutoOpenAfterClose(s: WidgetState, nowMs: int, es: seq<Event>)
    requires s.isChatOpen
    ensures AutoOpenCount(Run(Step(s, CloseClicked(nowMs)), es).browser.dataLayer)
         == AutoOpenCount(s.browser.dataLayer)
  {
    assert Step(s, CloseClicked(nowMs)) == CloseClick(s, nowMs);
    DismissalReadsBack(s.browser.cookieJar);
    DismissalSticky(CloseClick(s, nowMs), es);
  }

  /** The gate of `autoOpenChat`: it passes exactly when the panel is closed,
      no auto-open happened and no dismissal is recorded; passing reports the
      trigger and schedules one reveal, failing changes nothing. */
  lemma AutoOpenGate(s: WidgetState, trigger: string)
    ensures var r := AutoOpen(s, trigger);
      (!s.autoOpenTriggered && r.autoOpenTriggered) <==> (!s.isChatOpen && !s.autoOpenTriggered && !WasClosed(s))
    ensures var r := AutoOpen(s, trigger);
      !s.isChatOpen && !s.autoOpenTriggered && !WasClosed(s) ==>
        r.browser.dataLayer == s.browser.dataLayer + ["gobot_" + trigger]
        && r.timers[RevealPanel] == s.timers[RevealPanel] + 1
        && "chat-button-hidden" in r.dom.buttonClasses
        && r.browser.cookieJar == s.browser.cookieJar && !r.isChatOpen
    ensures s.isChatOpen || s.autoOpenTriggered || WasClosed(s) ==> AutoOpen(s, trigger) == s
  {
  }

  // ------------------------------------------------------------------ open and close

  /** The close button on the open panel records the dismissal (a 30-day
      cookie that reads back as "true"), returns the panel to its remembered
      corner, and schedules the two close steps; on a closed panel it does
      nothing. */
  lemma CloseRecordsDismissal(s: WidgetState, nowMs: int)
    ensures var r := CloseClick(s, nowMs);
      s.isChatOpen ==>
        WasClosed(r)
        && r.browser.cookieWrites == s.browser.cookieWrites
             + [CookieWrite(CHAT_CLOSED_COOKIE, "true", nowMs + DISMISSAL_DAYS * DAY_MS, "/")]
        && r.dom.style.position == "fixed"
        && r.dom.style.bottom == s.drag.originalPosition.bottom
        && r.dom.style.right == s.drag.originalPosition.right
        && r.timers == s.timers + multiset{ShowLauncher, FinishClose}
        && r.browser.dataLayer == s.browser.dataLayer
    ensures !s.isChatOpen ==> CloseClick(s, nowMs) == s
  {
    DismissalReadsBack(s.browser.cookieJar);
  }

  /** Close, then its two delays: the panel is closed, the launcher shows in
      its resting state, and the dismissal stays recorded. */
  lemma CloseCompletes(s: WidgetState, nowMs: int)
    requires s.isChatOpen
    ensures var r := CloseDelayElapsed(LauncherShowElapsed(CloseClick(s, nowMs)));
      !r.isChatOpen && WasClosed(r)
      && "chat-container-open" !in r.dom.containerClasses && "chat-container-closing" !in r.dom.containerClasses
      && "chat-button-hidden" !in r.dom.buttonClasses && "chat-button-visible" !in r.dom.buttonClasses
  {
    DismissalReadsBack(s.browser.cookieJar);
  }

  /** A launcher click on the closed panel opens it after the delay, reports
      "gobot_click", ignores any dismissal and writes no cookie; on an open
      panel it does nothing. */
  lemma ManualOpen(s: WidgetState)
    ensures var r := OpenDelayElapsed(LauncherClick(s));
      !s.isChatOpen ==>
        r.isChatOpen && "chat-container-open" in r.dom.containerClasses
        && r.browser.dataLayer == s.browser.dataLayer + ["gobot_click"]
        && r.browser.cookieJar == s.browser.cookieJar && r.browser.cookieWrites == s.browser.cookieWrites
        && r.autoOpenTriggered == s.autoOpenTriggered
        && r.timers == s.timers
    ensures s.isChatOpen ==> LauncherClick(s) == s
  {
    if !s.isChatOpen {
      assert LauncherClick(s).timers - multiset{RevealPanel} == s.timers;
    }
  }

  /** Manual and automatic opens do not exclude each other: on a page without
      the dismissal cookie, a launcher click followed, within the 150 ms
      reveal, by the 45 s timer reports both and leaves two reveals pending. */
  lemma ClickAndTimerBothOpen(jar: string)
    requires !ClosedIn(jar)
    ensures var r := TimerElapsed(LauncherClick(Init(jar)));
      r.browser.dataLayer == ["gobot_click", "gobot_timer"] && r.timers[RevealPanel] == 2
  {
    var s1 := LauncherClick(Init(jar));
    assert s1.browser.dataLayer == ["gobot_click"] && s1.browser.cookieJar == jar;
    assert Init(jar).timers[RevealPanel] == 0 && Init(jar).timers[AutoOpenTimer] == 1;
    assert s1.timers[RevealPanel] == 1 && AutoOpenTimer in s1.timers;
    var s2 := s1.(timers := s1.timers - multiset{AutoOpenTimer});
    assert s2.timers[RevealPanel] == 1;
    assert TimerElapsed(s1) == AutoOpen(s2, "timer");
    assert "gobot_" + "timer" == "gobot_timer";
    assert AutoOpen(s2, "timer").browser.dataLayer == ["gobot_click"] + ["gobot_timer"];
  }

  // ------------------------------------------------------------------ drag and resize

  /** A press in the header starts a drag unless it lands on a control. The
      remembered corner is the current inline bottom/right ('20px' when unset);
      a press on the handle runs the start twice, so the second run records the
      'auto' the first one wrote. */
  lemma PressStartsDrag(s: WidgetState, target: PressTarget, x: int, y: int, left: int, top: int)
    ensures target == OnControl ==> Press(s, target, x, y, left, top) == s
    ensures var r := Press(s, target, x, y, left, top);
      target != OnControl ==>
        r.drag.isDragging && HandleDragListener in r.dom.listeners && StopDragListener in r.dom.listeners
        && r.drag.offset == Point(x - left, y - top)
        && r.dom.style.left == Some(left) && r.dom.style.top == Some(top)
        && r.dom.style.bottom == "auto" && r.dom.style.right == "auto" && r.dom.userSelect == "none"
    ensures var r := Press(s, target, x, y, left, top);
      target == OnHeader ==>
        r.drag.originalPosition
          == Corner(if s.dom.style.bottom == "" then DEFAULT_OFFSET else s.dom.style.bottom,
                    if s.dom.style.right == "" then DEFAULT_OFFSET else s.dom.style.right)
    ensures target == OnDragHandle ==>
      Press(s, target, x, y, left, top).drag.originalPosition == Corner("auto", "auto")
  {
  }

  /** During a drag every pointer move keeps the panel's top-left inside the
      viewport for its current size, and follows the pointer exactly when that
      already fits. */
  lemma DragStaysInViewport(s: WidgetState, x: int, y: int, v: Viewport, cw: int, ch: int)
    requires ListenersInv(s) && s.drag.isDragging
    ensures var r := PointerMove(s, x, y, v, cw, ch);
      r.drag.isDragging && r.dom.style.left.Some? && r.dom.style.top.Some?
      && 0 <= r.dom.style.left.value <= Max(0, v.width - cw)
      && 0 <= r.dom.style.top.value <= Max(0, v.height - ch)
    ensures var r := PointerMove(s, x, y, v, cw, ch);
      0 <= x - s.drag.offset.x <= v.width - cw ==> r.dom.style.left == Some(x - s.drag.offset.x)
    ensures var r := PointerMove(s, x, y, v, cw, ch);
      0 <= y - s.drag.offset.y <= v.height - ch ==> r.dom.style.top == Some(y - s.drag.offset.y)
  {
  }

  /** With no drag or resize in progress a pointer move changes nothing. */
  lemma IdleMoveIsInert(s: WidgetState, x: int, y: int, v: Viewport, cw: int, ch: int)
    requires ListenersInv(s) && !s.drag.isDragging && !s.resize.isResizing
    ensures PointerMove(s, x, y, v, cw, ch) == s
  {
  }

  /** During a resize a move sets the width for "nw" and "w", the height for
      "nw" and "n", each to the start size minus the pointer's travel clamped
      to [300, 80% of the viewport] (300 when that ceiling is lower), and leaves
      the other dimension as it was. */
  lemma ResizeFollowsDirection(s: WidgetState, x: int, y: int, v: Viewport, cw: int, ch: int)
    requires ListenersInv(s) && s.resize.isResizing
    ensures var r := PointerMove(s, x, y, v, cw, ch);
      var horizontal := s.resize.currentResizer == Some("nw") || s.resize.currentResizer == Some("w");
      r.dom.style.width
        == (if horizontal then Some(ClampSize(s.resize.startWidth - (x - s.resize.startX), v.width))
            else s.dom.style.width)
    ensures var r := PointerMove(s, x, y, v, cw, ch);
      var vertical := s.resize.currentResizer == Some("nw") || s.resize.currentResizer == Some("n");
      r.dom.style.height
        == (if vertical then Some(ClampSize(s.resize.startHeight - (y - s.resize.startY), v.height))
            else s.dom.style.height)
    ensures var r := PointerMove(s, x, y, v, cw, ch);
      r.dom.style.width != s.dom.style.width ==>
        MIN_SIZE <= r.dom.style.width.value <= MaxR(MIN_SIZE, v.width as real * 0.8)
    ensures var r := PointerMove(s, x, y, v, cw, ch);
      r.dom.style.height != s.dom.style.height ==>
        MIN_SIZE <= r.dom.style.height.value <= MaxR(MIN_SIZE, v.height as real * 0.8)
  {
    var a := if HandleDragListener in s.dom.listeners then HandleDrag(s, x, y, v, cw, ch) else s;
    assert a.resize == s.resize && a.dom.listeners == s.dom.listeners;
    assert a.dom.style.width == s.dom.style.width && a.dom.style.height == s.dom.style.height;
    assert PointerMove(s, x, y, v, cw, ch) == HandleResize(a, x, y, v);
  }

  /** Releasing the button ends whichever session is running, detaches all its
      listeners and restores text selection; the panel stays where it is. */
  lemma ReleaseEndsSessions(s: WidgetState)
    requires ListenersInv(s)
    ensures var r := PointerUp(s);
      !r.drag.isDragging && !r.resize.isResizing && r.resize.currentResizer == None
      && HandleDragListener !in r.dom.listeners && StopDragListener !in r.dom.listeners
      && HandleResizeListener !in r.dom.listeners && StopResizeListener !in r.dom.listeners
      && r.dom.style == s.dom.style
      && (s.drag.isDragging || s.resize.isResizing ==> r.dom.userSelect == "")
  {
  }

  // ------------------------------------------------------------------ scroll trigger

  lemma RatioPositive(y: real, d: real)
    requires d > 0.0
    ensures (y / d) * 100.0 >= 60.0 <==> 100.0 * y >= 60.0 * d
  {
    var q := y / d;
    assert q * d == y;
    if q * 100.0 >= 60.0 { assert (q * 100.0 - 60.0) * d >= 0.0; }
    else { assert (60.0 - q * 100.0) * d > 0.0; }
  }

  lemma RatioNegative(y: real, d: real)
    requires d < 0.0
    ensures (y / d) * 100.0 >= 60.0 <==> 100.0 * y <= 60.0 * d
  {
    var q := y / d;
    assert q * d == y;
    if q * 100.0 >= 60.0 { assert (q * 100.0 - 60.0) * (-d) >= 0.0; }
    else { assert (60.0 - q * 100.0) * (-d) > 0.0; }
  }

  /** The percentage test in exact arithmetic is the source's ratio test for
      every non-zero scrollable height, including a negative one. */
  lemma ScrollReachedIsRatio(scrollY: int, scrollHeight: int, innerHeight: int)
    requires scrollHeight - innerHeight != 0
    ensures ScrollReached(scrollY, scrollHeight, innerHeight)
        <==> (scrollY as real / (scrollHeight - innerHeight) as real) * 100.0 >= 60.0
  {
    if scrollHeight - innerHeight > 0 {
      RatioPositive(scrollY as real, (scrollHeight - innerHeight) as real);
    } else {
      RatioNegative(scrollY as real, (scrollHeight - innerHeight) as real);
    }
  }

  /** The throttled check when 60% is scrolled: the gate passes on "scroll". */
  lemma ScrollCheckReached(s: WidgetState, scrollY: int, scrollHeight: int, innerHeight: int)
    requires ThrottledCheck in s.timers
    requires !s.scroll.fired && !s.autoOpenTriggered && !s.isChatOpen && !WasClosed(s)
    requires ScrollReached(scrollY, scrollHeight, innerHeight)
    ensures var r := ThrottleElapsed(s, scrollY, scrollHeight, innerHeight);
      r.autoOpenTriggered && r.scroll.fired && !r.scroll.timeoutPending
      && r.browser.dataLayer == s.browser.dataLayer + ["gobot_scroll"]
      && r.timers[RevealPanel] == s.timers[RevealPanel] + 1
  {
    var t := s.(timers := s.timers - multiset{ThrottledCheck});
    var u := t.(scroll := t.scroll.(fired := true));
    assert CheckScroll(t, scrollY, scrollHeight, innerHeight) == AutoOpen(u, "scroll");
    assert !WasClosed(u);
    assert "gobot_" + "scroll" == "gobot_scroll";
    assert t.timers[RevealPanel] == s.timers[RevealPanel];
  }

  /** The throttled check short of 60%: nothing but the throttle changes. */
  lemma ScrollCheckShort(s: WidgetState, scrollY: int, scrollHeight: int, innerHeight: int)
    requires ThrottledCheck in s.timers
    requires !ScrollReached(scrollY, scrollHeight, innerHeight)
    ensures var r := ThrottleElapsed(s, scrollY, scrollHeight, innerHeight);
      r.autoOpenTriggered == s.autoOpenTriggered && r.scroll.fired == s.scroll.fired
      && !r.scroll.timeoutPending && r.browser.dataLayer == s.browser.dataLayer
  {
    var t := s.(timers := s.timers - multiset{ThrottledCheck});
    assert CheckScroll(t, scrollY, scrollHeight, innerHeight) == t;
  }

  /** The throttled check, with the gate open and the scroll trigger unused,
      auto-opens exactly when 60% of the page has been scrolled. */
  lemma ScrollCheckOpens(s: WidgetState, scrollY: int, scrollHeight: int, innerHeight: int)
    requires ThrottledCheck in s.timers
    requires !s.scroll.fired && !s.autoOpenTriggered && !s.isChatOpen && !WasClosed(s)
    ensures var r := ThrottleElapsed(s, scrollY, scrollHeight, innerHeight);
      (r.autoOpenTriggered <==> ScrollReached(scrollY, scrollHeight, innerHeight))
      && (r.scroll.fired <==> ScrollReached(scrollY, scrollHeight, innerHeight))
      && !r.scroll.timeoutPending
    ensures var r := ThrottleElapsed(s, scrollY, scrollHeight, innerHeight);
      ScrollReached(scrollY, scrollHeight, innerHeight) ==>
        r.browser.dataLayer == s.browser.dataLayer + ["gobot_scroll"]
        && r.timers[RevealPanel] == s.timers[RevealPanel] + 1
    ensures var r := ThrottleElapsed(s, scrollY, scrollHeight, innerHeight);
      !ScrollReached(scrollY, scrollHeight, innerHeight) ==> r.browser.dataLayer == s.browser.dataLayer
  {
    if ScrollReached(scrollY, scrollHeight, innerHeight) {
      ScrollCheckReached(s, scrollY, scrollHeight, innerHeight);
    } else {
      ScrollCheckShort(s, scrollY, scrollHeight, innerHeight);
    }
  }
}
