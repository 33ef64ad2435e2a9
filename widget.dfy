/** The chat widget's interaction state machine (templates/js/init_chat.js):
    drag with viewport clamping, directional resize, the once-per-load
    auto-open gate with its scroll and timer triggers, and open/close with the
    dismissal cookie.

    The handlers' module-level variables and closure state, the bits of the DOM
    they write (inline style, class lists, document listeners, `userSelect`),
    `document.cookie`, the analytics `dataLayer`, and the timers scheduled with
    `setTimeout` make up one `WidgetState`. Browser events and timer expiries
    are explicit steps; a timer step does something only when that timer is
    pending. The pure functions here are the specification: WidgetProps proves
    their properties, and the class `WidgetClass.ChatWidget` runs the same
    handlers imperatively and is proved against them. */
module Widget {
  import opened Text
  import opened Cookie

  const CHAT_CLOSED_COOKIE: string := "chatbot_closed"
  const DISMISSAL_DAYS: int := 30
  const MIN_SIZE: real := 300.0
  const DEFAULT_OFFSET: string := "20px"

  datatype Point = Point(x: int, y: int)

  /** `originalPosition`: the CSS `bottom` and `right` to restore on close. */
  datatype Corner = Corner(bottom: string, right: string)

  /** The drag variables: `isDragging`, `dragOffset`, `originalPosition`. */
  datatype DragVars = DragVars(isDragging: bool, offset: Point, originalPosition: Corner)

  /** The resize variables: `isResizing`, `currentResizer` (None for `null`)
      and the pointer and size recorded when the resize began. */
  datatype ResizeVars = ResizeVars(isResizing: bool, currentResizer: Option<string>,
                                   startX: int, startY: int, startWidth: int, startHeight: int)

  /** The closure state of `initScrollTrigger`: `scrollTriggerFired`, whether
      `scrollTimeout` is set, and whether `throttledScroll` is attached. */
  datatype ScrollVars = ScrollVars(fired: bool, timeoutPending: bool, listening: bool)

  /** The inline style of `#chat-container` that the handlers write. An empty
      string or None means "not set inline". */
  datatype PanelStyle = PanelStyle(
    position: string, left: Option<int>, top: Option<int>,
    bottom: string, right: string, width: Option<real>, height: Option<real>)

  /** Listeners the handlers add to and remove from `document`. */
  datatype Listener = HandleDragListener | StopDragListener | HandleResizeListener | StopResizeListener

  /** The DOM the handlers write: the panel's style and classes, the
      launcher's classes, `document.body.style.userSelect`, and the document's
      listeners. */
  datatype Dom = Dom(style: PanelStyle, containerClasses: set<string>, buttonClasses: set<string>,
                     userSelect: string, listeners: set<Listener>)

  /** What the page leaves behind: `document.cookie`, the `setCookie` calls
      made, and the event names pushed to `window.dataLayer`. */
  datatype Browser = Browser(cookieJar: string, cookieWrites: seq<CookieWrite>, dataLayer: seq<string>)

  /** Callbacks scheduled with `setTimeout`. */
  datatype Timer =
    | RevealPanel      // 150 ms after an open: show the panel, set isChatOpen
    | ShowLauncher     // 150 ms after a close: show the launcher again
    | FinishClose      // 400 ms after a close: clear isChatOpen
    | ThrottledCheck   // 100 ms after a scroll: run checkScroll
    | InitialCheck     // 1000 ms after init: run checkScroll
    | AutoOpenTimer    // 45 s after init: autoOpenChat('timer')

  datatype Viewport = Viewport(width: int, height: int)

  datatype WidgetState = WidgetState(
    isChatOpen: bool, autoOpenTriggered: bool,
    drag: DragVars, resize: ResizeVars, scroll: ScrollVars,
    dom: Dom, browser: Browser, timers: multiset<Timer>)

  // ------------------------------------------------------------------ helpers

  function Max(a: int, b: int): int { if a >= b then a else b }
  function Min(a: int, b: int): int { if a <= b then a else b }
  function MaxR(a: real, b: real): real { if a >= b then a else b }
  function MinR(a: real, b: real): real { if a <= b then a else b }

  /** `wasChatClosedByUser()` on a given `document.cookie`. */
  predicate ClosedIn(jar: string)
  {
    CookieValue(jar, CHAT_CLOSED_COOKIE) == Some("true")
  }

  predicate WasClosed(s: WidgetState)
  {
    ClosedIn(s.browser.cookieJar)
  }

  /** The jar after `setCookie(CHAT_CLOSED_COOKIE, 'true', 30)`. */
  function WithDismissal(jar: string): string
  {
    StoreCookie(jar, CHAT_CLOSED_COOKIE, "true")
  }

  /** `Math.max(0, Math.min(v, limit))`: the drag clamp. */
  function ClampPosition(v: int, limit: int): (r: int)
    ensures 0 <= r <= Max(0, limit)
    ensures 0 <= v <= limit ==> r == v
  {
    Max(0, Min(v, limit))
  }

  /** `Math.max(300, Math.min(v, viewport * 0.8))`: the resize clamp. When the
      ceiling is below the floor, the floor wins. */
  function ClampSize(v: int, viewport: int): (r: real)
    ensures MIN_SIZE <= r <= MaxR(MIN_SIZE, viewport as real * 0.8)
    ensures MIN_SIZE <= v as real <= viewport as real * 0.8 ==> r == v as real
  {
    MaxR(MIN_SIZE, MinR(v as real, viewport as real * 0.8))
  }

  /** `(scrollY / (scrollHeight - innerHeight)) * 100 >= 60`, in exact
      arithmetic, including the zero and negative denominators JavaScript
      turns into Infinity, NaN or a sign flip. */
  predicate ScrollReached(scrollY: int, scrollHeight: int, innerHeight: int)
  {
    var d := scrollHeight - innerHeight;
    if d > 0 then 100 * scrollY >= 60 * d
    else if d == 0 then scrollY > 0
    else 100 * scrollY <= 60 * d
  }

  // ------------------------------------------------------------------ initial state

  const InitialStyle: PanelStyle := PanelStyle("", None, None, "", "", None, None)

  /** The state after `initializeChatbot` ran with `jar` as `document.cookie`:
      `initAutoOpenTriggers` arms the scroll listener, the 1000 ms check and the
      45 s timer only when no dismissal cookie is present. */
  function Init(jar: string): (s: WidgetState)
    ensures !s.isChatOpen && !s.autoOpenTriggered && !s.drag.isDragging && !s.resize.isResizing
    ensures s.browser == Browser(jar, [], [])
    ensures ClosedIn(jar) ==> s.timers == multiset{} && !s.scroll.listening
    ensures !ClosedIn(jar) ==> s.timers == multiset{InitialCheck, AutoOpenTimer} && s.scroll.listening
  {
    var closed := ClosedIn(jar);
    WidgetState(
      false, false,
      DragVars(false, Point(0, 0), Corner(DEFAULT_OFFSET, DEFAULT_OFFSET)),
      ResizeVars(false, None, 0, 0, 0, 0),
      ScrollVars(false, false, !closed),
      Dom(InitialStyle, {}, {}, "", {}),
      Browser(jar, [], []),
      if closed then multiset{} else multiset{InitialCheck, AutoOpenTimer})
  }

  // ------------------------------------------------------------------ drag

  /** `startDrag(e)`. A press whose target lies inside `#return-chat` or
      `#close-chat` does nothing. Otherwise the drag starts: the anchored
      corner is remembered ('20px' when unset), the offset from the panel's
      top-left is recorded, the panel is pinned at its current top-left, and the
      move/up listeners are attached. */
  function StartDrag(s: WidgetState, onControl: bool, clientX: int, clientY: int,
                     rectLeft: int, rectTop: int): WidgetState
  {
    if onControl then s
    else
      var st := s.dom.style;
      s.(drag := DragVars(true, Point(clientX - rectLeft, clientY - rectTop),
                          Corner(if st.bottom == "" then DEFAULT_OFFSET else st.bottom,
                                 if st.right == "" then DEFAULT_OFFSET else st.right)),
         dom := Dom(st.(position := "fixed", bottom := "auto", right := "auto",
                        left := Some(rectLeft), top := Some(rectTop)),
                    s.dom.containerClasses + {"dragging"}, s.dom.buttonClasses, "none",
                    s.dom.listeners + {HandleDragListener, StopDragListener}))
  }

  /** `handleDrag(e)`: while dragging, the new top-left is the pointer minus
      the offset, clamped to the viewport for the panel's current size. */
  function HandleDrag(s: WidgetState, clientX: int, clientY: int, v: Viewport,
                      containerWidth: int, containerHeight: int): WidgetState
  {
    if !s.drag.isDragging then s
    else
      var newX := clientX - s.drag.offset.x;
      var newY := clientY - s.drag.offset.y;
      s.(dom := s.dom.(style := s.dom.style.(
        left := Some(ClampPosition(newX, v.width - containerWidth)),
        top := Some(ClampPosition(newY, v.height - containerHeight)))))
  }

  /** `stopDrag()`. */
  function StopDrag(s: WidgetState): WidgetState
  {
    s.(drag := s.drag.(isDragging := false),
       dom := s.dom.(containerClasses := s.dom.containerClasses - {"dragging"},
                     listeners := s.dom.listeners - {HandleDragListener, StopDragListener},
                     userSelect := ""))
  }

  /** `resetPosition()`: back to the remembered bottom/right corner. */
  function ResetPosition(s: WidgetState): WidgetState
  {
    s.(dom := s.dom.(style := s.dom.style.(position := "fixed",
                                           bottom := s.drag.originalPosition.bottom,
                                           right := s.drag.originalPosition.right)))
  }

  // ------------------------------------------------------------------ resize

  /** `initResize(e, direction)`; `startWidth`/`startHeight` are the parsed
      computed size in whole pixels. */
  function InitResize(s: WidgetState, direction: string, clientX: int, clientY: int,
                      width: int, height: int): WidgetState
  {
    s.(resize := ResizeVars(true, Some(direction), clientX, clientY, width, height),
       dom := s.dom.(containerClasses := s.dom.containerClasses + {"resized"},
                     listeners := s.dom.listeners + {HandleResizeListener, StopResizeListener},
                     userSelect := "none"))
  }

  /** `handleResize(e)`: "nw" sets both sides, "n" the height, "w" the width,
      each as the start size minus the pointer's travel, clamped. */
  function HandleResize(s: WidgetState, clientX: int, clientY: int, v: Viewport): WidgetState
  {
    var rv := s.resize;
    if !rv.isResizing then s
    else
      var newWidth := rv.startWidth - (clientX - rv.startX);
      var newHeight := rv.startHeight - (clientY - rv.startY);
      var st := s.dom.style;
      if rv.currentResizer == Some("nw") then
        s.(dom := s.dom.(style := st.(width := Some(ClampSize(newWidth, v.width)),
                                      height := Some(ClampSize(newHeight, v.height)))))
      else if rv.currentResizer == Some("n") then
        s.(dom := s.dom.(style := st.(height := Some(ClampSize(newHeight, v.height)))))
      else if rv.currentResizer == Some("w") then
        s.(dom := s.dom.(style := st.(width := Some(ClampSize(newWidth, v.width)))))
      else s
  }

  /** `stopResize()`. */
  function StopResize(s: WidgetState): WidgetState
  {
    s.(resize := s.resize.(isResizing := false, currentResizer := None),
       dom := s.dom.(listeners := s.dom.listeners - {HandleResizeListener, StopResizeListener},
                     userSelect := ""))
  }

  // ------------------------------------------------------------------ auto-open gate

  /** `trackEvent(name)`: one more entry in `window.dataLayer`. */
  function Track(b: Browser, name: string): Browser
  {
    b.(dataLayer := b.dataLayer + [name])
  }

  /** `autoOpenChat(triggerType)`: nothing when the panel is open, an auto-open
      already happened, or the dismissal cookie is set. Otherwise the gate
      closes for good, the trigger is reported, the launcher hides and the
      panel is revealed 150 ms later. */
  function AutoOpen(s: WidgetState, trigger: string): WidgetState
  {
    if s.isChatOpen || s.autoOpenTriggered || WasClosed(s) then s
    else s.(autoOpenTriggered := true,
            browser := Track(s.browser, "gobot_" + trigger),
            dom := s.dom.(buttonClasses := s.dom.buttonClasses + {"chat-button-hidden"}),
            timers := s.timers + multiset{RevealPanel})
  }

  /** `checkScroll()`. */
  function CheckScroll(s: WidgetState, scrollY: int, scrollHeight: int, innerHeight: int): WidgetState
  {
    if s.scroll.fired || s.autoOpenTriggered then s
    else if ScrollReached(scrollY, scrollHeight, innerHeight) then
      AutoOpen(s.(scroll := s.scroll.(fired := true)), "scroll")
    else s
  }

  /** `throttledScroll()`: schedules one check unless one is pending. */
  function ThrottledScroll(s: WidgetState): WidgetState
  {
    if s.scroll.timeoutPending then s
    else s.(scroll := s.scroll.(timeoutPending := true), timers := s.timers + multiset{ThrottledCheck})
  }

  /** The throttle's timer: `checkScroll(); scrollTimeout = null`. */
  function ThrottleElapsed(s: WidgetState, scrollY: int, scrollHeight: int, innerHeight: int): WidgetState
  {
    if ThrottledCheck !in s.timers then s
    else
      var c := CheckScroll(s.(timers := s.timers - multiset{ThrottledCheck}), scrollY, scrollHeight, innerHeight);
      c.(scroll := c.scroll.(timeoutPending := false))
  }

  /** The deferred check scheduled at init. */
  function InitialCheckElapsed(s: WidgetState, scrollY: int, scrollHeight: int, innerHeight: int): WidgetState
  {
    if InitialCheck !in s.timers then s
    else CheckScroll(s.(timers := s.timers - multiset{InitialCheck}), scrollY, scrollHeight, innerHeight)
  }

  /** The 45 s timer: `autoOpenChat('timer')`. */
  function TimerElapsed(s: WidgetState): WidgetState
  {
    if AutoOpenTimer !in s.timers then s
    else AutoOpen(s.(timers := s.timers - multiset{AutoOpenTimer}), "timer")
  }

  // ------------------------------------------------------------------ open / close

  /** `chatBtn.onclick`: only when closed; hides the launcher, reports the
      click, reveals the panel later. Never touches the cookie. */
  function LauncherClick(s: WidgetState): WidgetState
  {
    if s.isChatOpen then s
    else s.(dom := s.dom.(buttonClasses := s.dom.buttonClasses + {"chat-button-hidden"}),
            browser := Track(s.browser, "gobot_click"),
            timers := s.timers + multiset{RevealPanel})
  }

  /** The 150 ms reveal shared by both open paths. */
  function OpenDelayElapsed(s: WidgetState): WidgetState
  {
    if RevealPanel !in s.timers then s
    else s.(timers := s.timers - multiset{RevealPanel},
            dom := s.dom.(containerClasses := s.dom.containerClasses + {"chat-container-open"}),
            isChatOpen := true)
  }

  /** `closeBtn.onclick`: only when open; writes the dismissal cookie for 30
      days, resets the position, and schedules the launcher reveal and the end
      of the close. */
  function CloseClick(s: WidgetState, nowMs: int): WidgetState
  {
    if !s.isChatOpen then s
    else
      var w := SetCookieRecord(CHAT_CLOSED_COOKIE, "true", DISMISSAL_DAYS, nowMs);
      var u := ResetPosition(s);
      u.(browser := u.browser.(cookieJar := WithDismissal(u.browser.cookieJar),
                               cookieWrites := u.browser.cookieWrites + [w]),
         dom := u.dom.(containerClasses := u.dom.containerClasses + {"chat-container-closing"}),
         timers := u.timers + multiset{ShowLauncher, FinishClose})
  }

  /** The close's 150 ms step. */
  function LauncherShowElapsed(s: WidgetState): WidgetState
  {
    if ShowLauncher !in s.timers then s
    else s.(timers := s.timers - multiset{ShowLauncher},
            dom := s.dom.(buttonClasses := s.dom.buttonClasses - {"chat-button-hidden"} + {"chat-button-visible"}))
  }

  /** The close's 400 ms step. */
  function CloseDelayElapsed(s: WidgetState): WidgetState
  {
    if FinishClose !in s.timers then s
    else s.(timers := s.timers - multiset{FinishClose},
            dom := s.dom.(containerClasses := s.dom.containerClasses - {"chat-container-open", "chat-container-closing"},
                          buttonClasses := s.dom.buttonClasses - {"chat-button-visible"}),
            isChatOpen := false)
  }

  // ------------------------------------------------------------------ events

  /** Where a mouse press in the header lands. The drag handle sits inside the
      header and both carry a `startDrag` listener, so a press on the handle
      runs `startDrag` twice (the handle's, then the header's as it bubbles). */
  datatype PressTarget = OnHeader | OnDragHandle | OnControl

  /** `mousedown` in the header. */
  function Press(s: WidgetState, target: PressTarget, x: int, y: int, left: int, top: int): WidgetState
  {
    if target == OnDragHandle then StartDrag(StartDrag(s, false, x, y, left, top), false, x, y, left, top)
    else StartDrag(s, target == OnControl, x, y, left, top)
  }

  /** `mousemove` on the document: the attached listeners, in the order they
      were added (the two write different style properties). */
  function PointerMove(s: WidgetState, x: int, y: int, v: Viewport, cw: int, ch: int): WidgetState
  {
    var a := if HandleDragListener in s.dom.listeners then HandleDrag(s, x, y, v, cw, ch) else s;
    if HandleResizeListener in a.dom.listeners then HandleResize(a, x, y, v) else a
  }

  /** `mouseup` on the document. */
  function PointerUp(s: WidgetState): WidgetState
  {
    var a := if StopDragListener in s.dom.listeners then StopDrag(s) else s;
    if StopResizeListener in a.dom.listeners then StopResize(a) else a
  }

  /** `scroll` on the window, while `throttledScroll` is attached. */
  function WindowScroll(s: WidgetState): WidgetState
  {
    if s.scroll.listening then ThrottledScroll(s) else s
  }

  datatype Event =
    | PointerDown(target: PressTarget, clientX: int, clientY: int, rectLeft: int, rectTop: int)
    | ResizerDown(direction: string, clientX: int, clientY: int, width: int, height: int)
    | Move(clientX: int, clientY: int, viewport: Viewport, containerWidth: int, containerHeight: int)
    | Up
    | Scroll
    | ScrollCheck(scrollY: int, scrollHeight: int, innerHeight: int)
    | InitialScrollCheck(scrollY: int, scrollHeight: int, innerHeight: int)
    | TimerFired
    | LauncherClicked
    | CloseClicked(nowMs: int)
    | OpenDelay
    | LauncherShowDelay
    | CloseDelay

  /** One browser event or timer expiry, dispatched to the listeners the
      source registers. */
  function Step(s: WidgetState, e: Event): WidgetState
  {
    match e
    case PointerDown(target, x, y, l, t) => Press(s, target, x, y, l, t)
    case ResizerDown(d, x, y, w, h) => InitResize(s, d, x, y, w, h)
    case Move(x, y, v, cw, ch) => PointerMove(s, x, y, v, cw, ch)
    case Up => PointerUp(s)
    case Scroll => WindowScroll(s)
    case ScrollCheck(y, h, ih) => ThrottleElapsed(s, y, h, ih)
    case InitialScrollCheck(y, h, ih) => InitialCheckElapsed(s, y, h, ih)
    case TimerFired => TimerElapsed(s)
    case LauncherClicked => LauncherClick(s)
    case CloseClicked(now) => CloseClick(s, now)
    case OpenDelay => OpenDelayElapsed(s)
    case LauncherShowDelay => LauncherShowElapsed(s)
    case CloseDelay => CloseDelayElapsed(s)
  }

  function Run(s: WidgetState, es: seq<Event>): WidgetState
    decreases |es|
  {
    if |es| == 0 then s else Run(Step(s, es[0]), es[1..])
  }
}
