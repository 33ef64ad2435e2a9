/** The widget's handlers as the source runs them: closures over mutable
    module-level variables that also write the DOM, the cookie jar and the
    analytics log (templates/js/init_chat.js). Each handler method is proved to
    perform exactly the step the Widget module specifies. */
module WidgetClass {
  import opened Text
  import opened Cookie
  import opened Widget

  class ChatWidget {
    var isChatOpen: bool
    var autoOpenTriggered: bool
    /** `isDragging`, `dragOffset`, `originalPosition`. */
    var drag: DragVars
    /** `isResizing`, `currentResizer`, `startX`, `startY`, `startWidth`, `startHeight`. */
    var resize: ResizeVars
    /** The closure variables of `initScrollTrigger`. */
    var scroll: ScrollVars
    /** The DOM the handlers write. */
    var dom: Dom
    /** `document.cookie`, the `setCookie` calls made, `window.dataLayer`. */
    var browser: Browser
    /** Pending `setTimeout` callbacks. */
    var timers: multiset<Timer>

    ghost function State(): WidgetState
      reads this
    {
      WidgetState(isChatOpen, autoOpenTriggered, drag, resize, scroll, dom, browser, timers)
    }

    /** `initializeChatbot` on a page whose `document.cookie` is `jar`,
        ending with `initAutoOpenTriggers()`. */
    constructor (jar: string)
      ensures State() == Init(jar)
    {
      isChatOpen, autoOpenTriggered := false, false;
      drag := DragVars(false, Point(0, 0), Corner(DEFAULT_OFFSET, DEFAULT_OFFSET));
      resize := ResizeVars(false, None, 0, 0, 0, 0);
      dom := Dom(InitialStyle, {}, {}, "", {});
      browser := Browser(jar, [], []);
      var v := GetCookie(jar, CHAT_CLOSED_COOKIE);
      if v != Some("true") {
        // initScrollTrigger(); initTimeTrigger();
        scroll := ScrollVars(false, false, true);
        timers := multiset{InitialCheck, AutoOpenTimer};
      } else {
        scroll := ScrollVars(false, false, false);
        timers := multiset{};
      }
    }

    /** `wasChatClosedByUser()`, reading the jar with the `getCookie` loop. */
    method WasChatClosedByUser() returns (closed: bool)
      ensures closed == WasClosed(State())
    {
      var v := GetCookie(browser.cookieJar, CHAT_CLOSED_COOKIE);
      closed := v == Some("true");
    }

    /** `setCookie(name, value, days)` at time `nowMs`. */
    method SetCookie(name: string, value: string, days: int, nowMs: int)
      modifies this
      ensures State() == old(State()).(browser := old(browser).(
        cookieJar := StoreCookie(old(browser.cookieJar), name, value),
        cookieWrites := old(browser.cookieWrites) + [SetCookieRecord(name, value, days, nowMs)]))
    {
      var w := CookieWrite(name, value, nowMs + days * DAY_MS, "/");
      browser := browser.(cookieJar := StoreCookie(browser.cookieJar, name, value),
                          cookieWrites := browser.cookieWrites + [w]);
    }

    /** `trackEvent(eventName)`. */
    method TrackEvent(name: string)
      modifies this
      ensures State() == old(State()).(browser := Track(old(browser), name))
    {
      browser := browser.(dataLayer := browser.dataLayer + [name]);
    }

    method StartDrag(onControl: bool, clientX: int, clientY: int, rectLeft: int, rectTop: int)
      modifies this
      ensures State() == Widget.StartDrag(old(State()), onControl, clientX, clientY, rectLeft, rectTop)
    {
      if onControl {
        return;
      }
      var st := dom.style;
      drag := DragVars(true, Point(clientX - rectLeft, clientY - rectTop),
                       Corner(if st.bottom == "" then DEFAULT_OFFSET else st.bottom,
                              if st.right == "" then DEFAULT_OFFSET else st.right));
      st := st.(position := "fixed", bottom := "auto", right := "auto",
                left := Some(rectLeft), top := Some(rectTop));
      dom := Dom(st, dom.containerClasses + {"dragging"}, dom.buttonClasses, "none",
                 dom.listeners + {HandleDragListener, StopDragListener});
    }

    method HandleDrag(clientX: int, clientY: int, v: Viewport, containerWidth: int, containerHeight: int)
      modifies this
      ensures State() == Widget.HandleDrag(old(State()), clientX, clientY, v, containerWidth, containerHeight)
    {
      if !drag.isDragging {
        return;
      }
      var newX := clientX - drag.offset.x;
      var newY := clientY - drag.offset.y;
      var constrainedX := Max(0, Min(newX, v.width - containerWidth));
      var constrainedY := Max(0, Min(newY, v.height - containerHeight));
      dom := dom.(style := dom.style.(left := Some(constrainedX), top := Some(constrainedY)));
    }

    method StopDrag()
      modifies this
      ensures State() == Widget.StopDrag(old(State()))
    {
      drag := drag.(isDragging := false);
      dom := dom.(containerClasses := dom.containerClasses - {"dragging"},
                  listeners := dom.listeners - {HandleDragListener, StopDragListener},
                  userSelect := "");
    }

    method ResetPosition()
      modifies this
      ensures State() == Widget.ResetPosition(old(State()))
    {
      dom := dom.(style := dom.style.(position := "fixed", bottom := drag.originalPosition.bottom,
                                      right := drag.originalPosition.right));
    }

    method InitResize(direction: string, clientX: int, clientY: int, width: int, height: int)
      modifies this
      ensures State() == Widget.InitResize(old(State()), direction, clientX, clientY, width, height)
    {
      resize := ResizeVars(true, Some(direction), clientX, clientY, width, height);
      dom := dom.(containerClasses := dom.containerClasses + {"resized"},
                  listeners := dom.listeners + {HandleResizeListener, StopResizeListener},
                  userSelect := "none");
    }

    method HandleResize(clientX: int, clientY: int, v: Viewport)
      modifies this
      ensures State() == Widget.HandleResize(old(State()), clientX, clientY, v)
    {
      if !resize.isResizing {
        return;
      }
      var newWidth := resize.startWidth - (clientX - resize.startX);
      var newHeight := resize.startHeight - (clientY - resize.startY);
      if resize.currentResizer == Some("nw") {
        dom := dom.(style := dom.style.(width := Some(ClampSize(newWidth, v.width)),
                                        height := Some(ClampSize(newHeight, v.height))));
      } else if resize.currentResizer == Some("n") {
        dom := dom.(style := dom.style.(height := Some(ClampSize(newHeight, v.height))));
      } else if resize.currentResizer == Some("w") {
        dom := dom.(style := dom.style.(width := Some(ClampSize(newWidth, v.width))));
      }
    }

    method StopResize()
      modifies this
      ensures State() == Widget.StopResize(old(State()))
    {
      resize := resize.(isResizing := false, currentResizer := None);
      dom := dom.(listeners := dom.listeners - {HandleResizeListener, StopResizeListener},
                  userSelect := "");
    }

    method AutoOpenChat(trigger: string)
      modifies this
      ensures State() == AutoOpen(old(State()), trigger)
    {
      var closed := WasChatClosedByUser();
      if isChatOpen || autoOpenTriggered || closed {
        return;
      }
      autoOpenTriggered := true;
      TrackEvent("gobot_" + trigger);
      dom := dom.(buttonClasses := dom.buttonClasses + {"chat-button-hidden"});
      timers := timers + multiset{RevealPanel};
    }

    method CheckScroll(scrollY: int, scrollHeight: int, innerHeight: int)
      modifies this
      ensures State() == Widget.CheckScroll(old(State()), scrollY, scrollHeight, innerHeight)
    {
      if scroll.fired || autoOpenTriggered {
        return;
      }
      if ScrollReached(scrollY, scrollHeight, innerHeight) {
        scroll := scroll.(fired := true);
        AutoOpenChat("scroll");
        // removeEventListener('scroll', checkScroll) names a listener that was
        // never added, so the throttled listener stays attached.
      }
    }

    method ThrottledScroll()
      modifies this
      ensures State() == Widget.ThrottledScroll(old(State()))
    {
      if !scroll.timeoutPending {
        scroll := scroll.(timeoutPending := true);
        timers := timers + multiset{ThrottledCheck};
      }
    }

    method ThrottleElapsed(scrollY: int, scrollHeight: int, innerHeight: int)
      modifies this
      ensures State() == Widget.ThrottleElapsed(old(State()), scrollY, scrollHeight, innerHeight)
    {
      if ThrottledCheck !in timers {
        return;
      }
      timers := timers - multiset{ThrottledCheck};
      CheckScroll(scrollY, scrollHeight, innerHeight);
      scroll := scroll.(timeoutPending := false);
    }

    method InitialCheckElapsed(scrollY: int, scrollHeight: int, innerHeight: int)
      modifies this
      ensures State() == Widget.InitialCheckElapsed(old(State()), scrollY, scrollHeight, innerHeight)
    {
      if InitialCheck !in timers {
        return;
      }
      timers := timers - multiset{InitialCheck};
      CheckScroll(scrollY, scrollHeight, innerHeight);
    }

    method TimerElapsed()
      modifies this
      ensures State() == Widget.TimerElapsed(old(State()))
    {
      if AutoOpenTimer !in timers {
        return;
      }
      timers := timers - multiset{AutoOpenTimer};
      AutoOpenChat("timer");
    }

    /** `chatBtn.onclick`. */
    method LauncherClick()
      modifies this
      ensures State() == Widget.LauncherClick(old(State()))
    {
      if !isChatOpen {
        dom := dom.(buttonClasses := dom.buttonClasses + {"chat-button-hidden"});
        TrackEvent("gobot_click");
        timers := timers + multiset{RevealPanel};
      }
    }

    method OpenDelayElapsed()
      modifies this
      ensures State() == Widget.OpenDelayElapsed(old(State()))
    {
      if RevealPanel in timers {
        timers := timers - multiset{RevealPanel};
        dom := dom.(containerClasses := dom.containerClasses + {"chat-container-open"});
        isChatOpen := true;
      }
    }

    /** `closeBtn.onclick` at time `nowMs`. */
    method CloseClick(nowMs: int)
      modifies this
      ensures State() == Widget.CloseClick(old(State()), nowMs)
    {
      if isChatOpen {
        SetCookie(CHAT_CLOSED_COOKIE, "true", DISMISSAL_DAYS, nowMs);
        ResetPosition();
        dom := dom.(containerClasses := dom.containerClasses + {"chat-container-closing"});
        timers := timers + multiset{ShowLauncher, FinishClose};
      }
    }

    method LauncherShowElapsed()
      modifies this
      ensures State() == Widget.LauncherShowElapsed(old(State()))
    {
      if ShowLauncher in timers {
        timers := timers - multiset{ShowLauncher};
        dom := dom.(buttonClasses := dom.buttonClasses - {"chat-button-hidden"} + {"chat-button-visible"});
      }
    }

    method CloseDelayElapsed()
      modifies this
      ensures State() == Widget.CloseDelayElapsed(old(State()))
    {
      if FinishClose in timers {
        timers := timers - multiset{FinishClose};
        dom := dom.(containerClasses := dom.containerClasses - {"chat-container-open", "chat-container-closing"},
                    buttonClasses := dom.buttonClasses - {"chat-button-visible"});
        isChatOpen := false;
      }
    }

    /** One event, delivered to the listeners registered for it. */
    method Dispatch(e: Event)
      modifies this
      ensures State() == Step(old(State()), e)
    {
      match e
      case PointerDown(target, x, y, l, t) =>
        if target == OnDragHandle {
          StartDrag(false, x, y, l, t);
          StartDrag(false, x, y, l, t);
        } else {
          StartDrag(target == OnControl, x, y, l, t);
        }
      case ResizerDown(d, x, y, w, h) => InitResize(d, x, y, w, h);
      case Move(x, y, v, cw, ch) =>
        if HandleDragListener in dom.listeners { HandleDrag(x, y, v, cw, ch); }
        if HandleResizeListener in dom.listeners { HandleResize(x, y, v); }
      case Up =>
        if StopDragListener in dom.listeners { StopDrag(); }
        if StopResizeListener in dom.listeners { StopResize(); }
      case Scroll => if scroll.listening { ThrottledScroll(); }
      case ScrollCheck(y, h, ih) => ThrottleElapsed(y, h, ih);
      case InitialScrollCheck(y, h, ih) => InitialCheckElapsed(y, h, ih);
      case TimerFired => TimerElapsed();
      case LauncherClicked => LauncherClick();
      case CloseClicked(now) => CloseClick(now);
      case OpenDelay => OpenDelayElapsed();
      case LauncherShowDelay => LauncherShowElapsed();
      case CloseDelay => CloseDelayElapsed();
    }

    /** A whole sequence of events, one after another. */
    method DispatchAll(es: seq<Event>)
      modifies this
      ensures State() == Run(old(State()), es)
    {
      var i := 0;
      while i < |es|
        invariant 0 <= i <= |es|
        invariant Run(old(State()), es) == Run(State(), es[i..])
      {
        assert es[i..][0] == es[i] && es[i..][1..] == es[i + 1..];
        Dispatch(es[i]);
        i := i + 1;
      }
    }
  }
}
