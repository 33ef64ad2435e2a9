# aldar-bot in Dafny

This project models the core of aldar-bot. aldar-bot is a customer-service chatbot that answers on four channels:

- an embeddable web chat widget;
- Facebook Messenger;
- WhatsApp Business;
- phone calls bridged from Twilio to Gemini Live.

It also has a small self-service site, `/min`. The model covers the following, each with its contracts and proofs:

- **The web widget** (`templates/js/init_chat.js`): the chat launcher and panel, drag and resize, one-time auto-open by scroll or timer, the dismissal cookie, and the link rewrite after an htmx swap.
  - `Widget` is a pure state machine: one function per handler and per timer callback.
  - `WidgetClass.ChatWidget` holds the same variables as mutable fields. Each handler method is proved to move its state exactly as the matching function does.
  - `WidgetProps` proves what holds over every trace of events from page load:
    - the widget auto-opens at most once;
    - a dismissed page never auto-opens;
    - a drag keeps the panel inside the viewport;
    - a resize clamps to its bounds;
    - the listeners follow the drag and resize flags.
  - `Cookie` holds the cookie helpers: the `getCookie` loop, proved against a first-match specification.
  - `ChatLinks` holds the after-swap anchor rewrite, done in place on an array.
- **Messenger and WhatsApp webhooks** (`routes/facebook.py`, `routes/whatsapp.py`): the subscription handshake, audio format sniffing, duplicate suppression and the per-message effects.
  - Duplicate suppression is a one-hour cache on Messenger and a bounded id set on WhatsApp.
  - Per-message effects are: create the chat, store the user turn, ask the bot, store the bot turn, send, and (on WhatsApp) mark the message read.
  - An exception ends the handling where it is raised. On Messenger one `try` around the whole walk answers 500 and skips the remaining events; on WhatsApp the message is left unread.
  - As written, the routes call `bot.respond`, which the bot class does not define, so every message stops after the user turn (see "## Findings").
  - The bot, speech services, media download and audio conversion are passed in as functions (`Channel.Ports`).
- **The bot** (`models/bot.py`):
  - model selection and the model-name mapping;
  - the system prompt;
  - the knowledge files read for an admin;
  - saving and loading a chat's state.
- **The `/min` site** (`routes/min.py`): remembering the last page, login gating, usernames, chat ownership, pinging the admin, posting a message, and the online-users counter.
- **The call bridge** (`ws-app.py`):
  - the Twilio stream loop;
  - the gate that sends Gemini's audio only once a stream id is known;
  - the transcript buffering of user and bot turns;
  - fetching the system instruction.
- **The three services** (`services/*.py`): each MongoDB collection is a table held as a sequence of documents.
  - `find_one`, `update_one` and `delete_one` act on the first matching document.
  - `$push` appends.
  - `sort`, `skip` and `limit` are sequence operations.

I/O is replaced by parameters or outputs: the clock, generated ids, HTTP replies, files, the network and timers. The browser's timers become explicit "elapsed" events that carry a multiset of pending callbacks.

## Model

| member | source | states |
|---|---|---|
| Cookie.SetCookieRecord | templates/js/init_chat.js:267-272 | the cookie written has the given name and value, path "/", and expires exactly `days` days after now |
| Cookie.LeadingSpacesGoneSpec | templates/js/init_chat.js:277-279 | the result is a suffix of the segment that does not start with a space |
| Cookie.FirstWithPrefixSpec | templates/js/init_chat.js:274-283 | the lookup misses iff no segment matches; a hit is the first matching segment's text after `name=` |
| Cookie.GetCookie | templates/js/init_chat.js:274-283 | the split-and-scan loop returns exactly the first-match value, or null when none matches |
| Cookie.CookieValue | templates/js/init_chat.js:274-283 | the value `getCookie` finds: the first segment's text after `name=`; its meaning is given by Cookie.FirstWithPrefixSpec |
| Cookie.StoreCookie | templates/js/init_chat.js:267-272 | the jar after a write, the new cookie first with older segments kept behind it (a browser keeps creation order, which changes no read); Cookie.StoreThenRead and Cookie.StoreKeepsOthers state what it does to reads |
| Cookie.StoreThenRead | templates/js/init_chat.js:267-283 | a cookie just written reads back as the value written, whatever the jar held |
| Cookie.StoreKeepsOthers | templates/js/init_chat.js:267-283 | whatever the jar held, writing one cookie leaves the value read under another name unchanged |
| Widget.ClampPosition | templates/js/init_chat.js:343-361 | the clamped coordinate lies in [0, max(0, limit)], and equals the input when that already fits |
| Widget.ClampSize | templates/js/init_chat.js:486-511 | the clamped size lies in [300, max(300, 80% of the viewport)], and equals the input when that already fits |
| Widget.ScrollReached | templates/js/init_chat.js:414-416 | the 60% test in exact arithmetic; WidgetProps.ScrollReachedIsRatio ties it to the source's ratio |
| Widget.StartDrag | templates/js/init_chat.js:311-341 | the drag-start transition; WidgetProps.PressStartsDrag states its result |
| Widget.HandleDrag | templates/js/init_chat.js:343-361 | the drag-move transition; WidgetProps.DragStaysInViewport states its result |
| Widget.StopDrag | templates/js/init_chat.js:363-369 | the drag-stop transition; WidgetProps.ReleaseEndsSessions states its result |
| Widget.ResetPosition | templates/js/init_chat.js:372-376 | the return to the remembered corner; WidgetProps.CloseRecordsDismissal states its use |
| Widget.InitResize | templates/js/init_chat.js:468-484 | the resize-start transition; WidgetProps.InitResizeOk states the invariant it keeps |
| Widget.HandleResize | templates/js/init_chat.js:486-511 | the resize-move transition; WidgetProps.ResizeFollowsDirection states its result |
| Widget.StopResize | templates/js/init_chat.js:513-519 | the resize-stop transition; WidgetProps.ReleaseEndsSessions states its result |
| Widget.AutoOpen | templates/js/init_chat.js:384-405 | the auto-open gate; WidgetProps.AutoOpenGate states it both ways |
| Widget.CheckScroll | templates/js/init_chat.js:411-422 | the scroll check; WidgetProps.ScrollCheckOpens states when it opens |
| Widget.LauncherClick | templates/js/init_chat.js:528-542 | the launcher click; WidgetProps.ManualOpen states its result |
| Widget.CloseClick | templates/js/init_chat.js:545-564 | the close click; WidgetProps.CloseRecordsDismissal states its result |
| Widget.Step | templates/js/init_chat.js:311-564 | one event dispatched to its listener; WidgetProps.StepKeepsReachable states the invariants it keeps |
| Widget.Run | templates/js/init_chat.js:311-564 | a run of events; WidgetProps.RunKeepsReachable and WidgetProps.FromPageLoad state what holds over it |
| Widget.Init | templates/js/init_chat.js:285-296 | the panel starts closed, with no session in progress; the scroll listener, 1 s check and 45 s timer are armed only when no dismissal cookie is present |
| WidgetClass.ChatWidget.constructor | templates/js/init_chat.js:285-296 | the widget's fields hold the initial state for the page's cookie jar |
| WidgetClass.ChatWidget.WasChatClosedByUser | templates/js/init_chat.js:379-381 | true exactly when the dismissal cookie reads "true" |
| WidgetClass.ChatWidget.SetCookie | templates/js/init_chat.js:267-272 | records the cookie write and stores it in the jar; nothing else changes |
| WidgetClass.ChatWidget.TrackEvent | templates/js/init_chat.js:298-306 | appends the event name to the analytics log; nothing else changes |
| WidgetClass.ChatWidget.StartDrag | templates/js/init_chat.js:311-341 | the new state is the drag-start transition of the old one |
| WidgetClass.ChatWidget.HandleDrag | templates/js/init_chat.js:343-361 | the new state is the drag-move transition |
| WidgetClass.ChatWidget.StopDrag | templates/js/init_chat.js:363-369 | the new state is the drag-stop transition |
| WidgetClass.ChatWidget.ResetPosition | templates/js/init_chat.js:372-376 | the panel returns to its remembered corner |
| WidgetClass.ChatWidget.InitResize | templates/js/init_chat.js:468-484 | the new state is the resize-start transition |
| WidgetClass.ChatWidget.HandleResize | templates/js/init_chat.js:486-511 | the new state is the resize-move transition |
| WidgetClass.ChatWidget.StopResize | templates/js/init_chat.js:513-519 | the new state is the resize-stop transition |
| WidgetClass.ChatWidget.AutoOpenChat | templates/js/init_chat.js:384-405 | the new state is the auto-open gate's transition |
| WidgetClass.ChatWidget.CheckScroll | templates/js/init_chat.js:411-422 | the new state is the 60% scroll check's transition |
| WidgetClass.ChatWidget.ThrottledScroll | templates/js/init_chat.js:426-433 | a scroll queues a check only while none is pending |
| WidgetClass.ChatWidget.ThrottleElapsed | templates/js/init_chat.js:428-431 | the pending throttled check runs, and then `scrollTimeout` is cleared |
| WidgetClass.ChatWidget.InitialCheckElapsed | templates/js/init_chat.js:438 | the check queued at load runs once |
| WidgetClass.ChatWidget.TimerElapsed | templates/js/init_chat.js:442-446 | the 45 s timer runs the auto-open gate with trigger "timer" |
| WidgetClass.ChatWidget.LauncherClick | templates/js/init_chat.js:528-542 | the new state is the launcher-click transition |
| WidgetClass.ChatWidget.OpenDelayElapsed | templates/js/init_chat.js:534-540 | the 150 ms reveal opens the panel |
| WidgetClass.ChatWidget.CloseClick | templates/js/init_chat.js:545-564 | the new state is the close-click transition |
| WidgetClass.ChatWidget.LauncherShowElapsed | templates/js/init_chat.js:553-556 | the 150 ms close step shows the launcher |
| WidgetClass.ChatWidget.CloseDelayElapsed | templates/js/init_chat.js:558-562 | the 400 ms close step closes the panel |
| WidgetClass.ChatWidget.Dispatch | templates/js/init_chat.js:460-564 | one event delivered to its listeners moves the fields as one step of the state machine does |
| WidgetClass.ChatWidget.DispatchAll | templates/js/init_chat.js:460-564 | a sequence of events moves the fields as the whole run does |
| WidgetProps.DismissalReadsBack | templates/js/init_chat.js:379-381 | after the dismissal cookie is written, `wasChatClosedByUser` is true |
| WidgetProps.AutoOpenOk | templates/js/init_chat.js:384-405 | an auto-open either changes neither log nor gate, or passes the gate (panel closed, no dismissal) and reports the trigger once |
| WidgetProps.PressOk | templates/js/init_chat.js:311-341 | a press keeps the listener invariant and reports nothing |
| WidgetProps.InitResizeOk | templates/js/init_chat.js:468-484 | starting a resize keeps the listener invariant and reports nothing |
| WidgetProps.HandlersTouchStyleOnly | templates/js/init_chat.js:343-361 | the drag and resize move handlers change only the panel's inline style |
| WidgetProps.PointerMoveOk | templates/js/init_chat.js:343-361 | a pointer move is an allowed step |
| WidgetProps.PointerUpOk | templates/js/init_chat.js:363-369 | a release is an allowed step |
| WidgetProps.WindowScrollOk | templates/js/init_chat.js:426-433 | a scroll keeps at most one throttled check pending |
| WidgetProps.CheckScrollOk | templates/js/init_chat.js:411-422 | the scroll check is an allowed step |
| WidgetProps.ThrottleElapsedOk | templates/js/init_chat.js:428-431 | the throttled check is an allowed step |
| WidgetProps.InitialCheckElapsedOk | templates/js/init_chat.js:438 | the load-time check is an allowed step |
| WidgetProps.TimerElapsedOk | templates/js/init_chat.js:442-446 | the timer is an allowed step |
| WidgetProps.LauncherClickOk | templates/js/init_chat.js:528-542 | a launcher click reports at most "gobot_click" and leaves the gate alone |
| WidgetProps.CloseClickOk | templates/js/init_chat.js:545-564 | a close writes at most the dismissal cookie |
| WidgetProps.OpenDelayOk | templates/js/init_chat.js:534-540 | the reveal is an allowed step |
| WidgetProps.LauncherShowOk | templates/js/init_chat.js:553-556 | the launcher reveal is an allowed step |
| WidgetProps.CloseDelayOk | templates/js/init_chat.js:558-562 | the final close step is an allowed step |
| WidgetProps.StepEffect | templates/js/init_chat.js:311-564 | every event is an allowed step |
| WidgetProps.StepKeepsReachable | templates/js/init_chat.js:311-564 | one event keeps the gate, listener and throttle invariants, and never resets the gate |
| WidgetProps.RunKeepsReachable | templates/js/init_chat.js:311-564 | any run of events keeps the invariants |
| WidgetProps.FromPageLoad | templates/js/init_chat.js:384-457 | from page load, under any events: at most one auto-open is reported, the gate flag says whether it was, at most one scroll check is queued, and the listeners match the drag and resize flags |
| WidgetProps.StepKeepsDismissal | templates/js/init_chat.js:384-388 | once dismissed, a step keeps the dismissal and reports no auto-open |
| WidgetProps.DismissalSticky | templates/js/init_chat.js:384-388 | once dismissed, a whole run reports no auto-open |
| WidgetProps.DismissedPageNeverAutoOpens | templates/js/init_chat.js:449-457 | a page loaded with the dismissal cookie never auto-opens |
| WidgetProps.NoAutoOpenAfterClose | templates/js/init_chat.js:545-564 | after the user closes the open panel, nothing later reports an auto-open |
| WidgetProps.AutoOpenGate | templates/js/init_chat.js:384-405 | the gate passes iff the panel is closed, no auto-open has happened and no dismissal is recorded; passing reports `gobot_<trigger>` and schedules one reveal; failing changes nothing |
| WidgetProps.CloseRecordsDismissal | templates/js/init_chat.js:545-564 | closing the open panel writes a 30-day "true" dismissal cookie, restores the remembered corner and schedules both close steps; on a closed panel it does nothing |
| WidgetProps.CloseCompletes | templates/js/init_chat.js:545-564 | after close and both delays, the panel is closed, the launcher is at rest, and the dismissal stays |
| WidgetProps.ManualOpen | templates/js/init_chat.js:528-542 | a click on the closed panel opens it after the delay, reports "gobot_click", writes no cookie and leaves the gate and the timers; a click on the open panel changes nothing |
| WidgetProps.ClickAndTimerBothOpen | templates/js/init_chat.js:384-405 | a click followed within 150 ms by the timer reports both opens and queues two reveals |
| WidgetProps.PressStartsDrag | templates/js/init_chat.js:311-341 | a press off the controls starts a drag: it sets the offset and fixes the position; the remembered corner is the inline one ('20px' when unset), or 'auto' when the press is on the handle |
| WidgetProps.DragStaysInViewport | templates/js/init_chat.js:343-361 | every drag move keeps the panel inside the viewport, and follows the pointer exactly when that fits |
| WidgetProps.IdleMoveIsInert | templates/js/init_chat.js:343-361 | with no drag or resize in progress, a move changes nothing |
| WidgetProps.ResizeFollowsDirection | templates/js/init_chat.js:486-511 | "nw"/"w" set the width and "nw"/"n" set the height, each to the start size minus the travel, clamped; the other dimension is kept |
| WidgetProps.ReleaseEndsSessions | templates/js/init_chat.js:363-369 | a release ends drag and resize, removes their listeners and restores text selection; the panel stays put |
| WidgetProps.ScrollReachedIsRatio | templates/js/init_chat.js:414-416 | the exact percentage test agrees with the source's ratio test for every non-zero scrollable height |
| WidgetProps.ScrollCheckOpens | templates/js/init_chat.js:411-433 | with the gate open, the throttled check auto-opens iff 60% is scrolled, and reports "gobot_scroll" then |
| ChatLinks.Rewrite | templates/js/init_chat.js:568-575 | a root-relative anchor loses href and gains hx-get = baseURL + href, hx-target "#chatbox" and hx-swap "innerHTML", keeping its other attributes; any other element is unchanged |
| ChatLinks.RewriteAll | templates/js/init_chat.js:568-575 | every element is rewritten in place, in order |
| ChatLinks.RewriteAllLeavesNoRootLinks | templates/js/init_chat.js:568-575 | after the rewrite no root link is left, and a second rewrite changes nothing |
| ChatLinks.AfterSwap | templates/js/init_chat.js:566-582 | a swap into #chatbox rewrites the content array; any other target leaves it unchanged |
| Audio.DetectAudioFormat | routes/facebook.py:59-75 | inputs under 12 bytes give None; a result's signature is present in the header, and no format tried before it (wav, ogg, mp3, flac, mp4) matches; None on a long input means no signature is present |
| Audio.WavPrecedesMp4 | routes/facebook.py:59-75 | a header carrying both the RIFF/WAVE and the `ftyp` signature is detected as wav, the format tried first |
| Audio.DetectsCanonical | routes/whatsapp.py:37-54 | every format's own canonical header is recognised as that format |
| Audio.OnlyHeaderMatters | routes/facebook.py:59-75 | two inputs sharing their first 12 bytes get the same answer |
| Channel.ConfiguredToken | routes/facebook.py:13 | the configured verify token is the environment's value, else the default |
| Channel.VerifyWebhook | routes/whatsapp.py:25-34 | 200 with the challenge iff the mode is subscribe, the token matches and a challenge is given; 403 "Forbidden" iff mode or token fails; 500 otherwise (the handshake is the same in routes/facebook.py:45-56) |
| Channel.AppendKeepsChats | routes/facebook.py:162-168 | effects about one sender, creating its chat first when missing, keep every sender's chat created before use and created once |
| Facebook.IsDuplicate | routes/facebook.py:33-41 | the duplicate test on the cleaned cache; Facebook.RepeatWithinHour states it for a recorded id |
| Facebook.Cleanup | routes/facebook.py:22-30 | an id stays exactly when its age is at most an hour |
| Facebook.Register | routes/facebook.py:33-41 | after the check the id is known; a new id is stamped now, and a repeat keeps its time |
| Facebook.CleanupIdempotent | routes/facebook.py:22-30 | cleaning twice at one time removes nothing more |
| Facebook.RepeatWithinHour | routes/facebook.py:19-41 | an id first seen at t is a duplicate at t2 >= t iff t2 - t is at most an hour |
| Facebook.RepeatKeepsFirstTime | routes/facebook.py:33-41 | a repeat does not renew the id's time |
| Facebook.AttachmentEffects | routes/facebook.py:189-250 | one attachment's effects; Facebook.AttachmentsAboutSender and Facebook.UnconvertedReplyNotRecorded state their properties |
| Facebook.AttachmentsRaiseIff | routes/facebook.py:188-217 | the attachment loop raises iff some attachment is audio that downloads and whose bot call raises |
| Facebook.AttachmentsStopAtRaise | routes/facebook.py:188-217 | once an attachment has raised, the later attachments add no effect |
| Facebook.MessageEffects | routes/facebook.py:171-250 | a message's effects, text or attachments; Facebook.TextReplyRecorded and Facebook.MessageAboutSender state their properties |
| Facebook.NewMessageEffects | routes/facebook.py:162-250 | the chat first when missing, then the message's effects; Facebook.NewMessageShape states their shape |
| Facebook.AfterEvent | routes/facebook.py:148-250 | one event as a step of the walk; Facebook.DuplicateHasNoEffect, Facebook.RedeliveryHandledOnce and Facebook.AfterEventKeepsChats state its properties |
| Facebook.AfterWebhook | routes/facebook.py:135-266 | the whole webhook as a walk that stops at the first raise; Facebook.WebhookKeepsChats, Facebook.MissingRespondAborts and Facebook.RespondingWebhookSucceeds state its properties |
| Facebook.OtherObjectsIgnored | routes/facebook.py:142 | a payload whose object is not "page" changes nothing and raises nothing |
| Facebook.DuplicateHasNoEffect | routes/facebook.py:157-160 | a duplicate message stores, creates and sends nothing, and does not raise |
| Facebook.RedeliveryHandledOnce | routes/facebook.py:148-160 | the same event delivered twice in a row produces its effects once |
| Facebook.AttachmentsAboutSender | routes/facebook.py:185-250 | every attachment effect concerns the sender, and none creates a chat |
| Facebook.MessageAboutSender | routes/facebook.py:171-250 | every message effect concerns the sender, and none creates a chat |
| Facebook.NewMessageShape | routes/facebook.py:162-250 | a new message's effects concern its sender, and only the first may create a chat, for a sender without one |
| Facebook.AfterEventKeepsChats | routes/facebook.py:148-250 | one event keeps chats created before use and created once |
| Facebook.AfterEventsKeepsChats | routes/facebook.py:148-250 | a list of events keeps it |
| Facebook.AfterEntriesKeepsChats | routes/facebook.py:145-250 | a list of entries keeps it |
| Facebook.WebhookKeepsChats | routes/facebook.py:135-260 | any webhook call keeps it |
| Facebook.TextReplyRecorded | routes/facebook.py:172-182 | a text is first stored as the user's turn; handling raises iff the bot's call does; when the bot answers, the answer is stored as the bot's turn and sent (stored before sent), and when the call raises the user's turn is the only effect |
| Facebook.UnconvertedReplyNotRecorded | routes/facebook.py:225-244 | when the bot answers but the spoken answer cannot be converted, the text answer is sent but never stored |
| Facebook.MissingRespondAborts | routes/facebook.py:172-182 | with the bot call raising, a new text as the payload's first event leaves only the chat creation (when missing) and the user's turn, and the webhook answers 500 |
| Facebook.RespondingWebhookSucceeds | routes/facebook.py:135-260 | with a bot call that always returns, no event raises and the webhook answers 200 |
| Facebook.RespondingEventSucceeds | routes/facebook.py:148-250 | with such a bot, one event never raises |
| Facebook.FacebookRoute.constructor | routes/facebook.py:17-19 | an empty id cache, and the given chats |
| Facebook.FacebookRoute.CleanupOldMessages | routes/facebook.py:22-30 | the collect-then-delete loops leave exactly the cleaned cache |
| Facebook.FacebookRoute.IsDuplicateMessage | routes/facebook.py:33-41 | the answer is whether the id is in the cleaned cache; the cache is then registered |
| Facebook.FacebookRoute.HandleAttachments | routes/facebook.py:188-250 | the loop appends exactly the attachments' effects up to the first that raises, and reports whether one did |
| Facebook.FacebookRoute.HandleEvent | routes/facebook.py:148-250 | the route's state moves as one event does, and it reports whether the event raised |
| Facebook.FacebookRoute.Webhook | routes/facebook.py:135-266 | the nested loops move the state as the walk does, stopping at the first event that raises; the answer is 500 iff one raised, else 200 |
| Whatsapp.PayloadMessages | routes/whatsapp.py:159-173 | the messages processed, in order; Whatsapp.ChangeMessageCollected and Whatsapp.CollectedMessagesComeFromChanges state both directions |
| Whatsapp.ChangeMessageCollected | routes/whatsapp.py:162-173 | every message of every change with messages is processed |
| Whatsapp.CollectedMessagesComeFromChanges | routes/whatsapp.py:162-173 | only messages of the payload's changes are processed |
| Whatsapp.MessageEffects | routes/whatsapp.py:212-294 | the answer, then the mark-read unless the handling raised; Whatsapp.MarkedReadUnlessRaised states its shape |
| Whatsapp.MarkedReadUnlessRaised | routes/whatsapp.py:212-294 | a message is marked read iff its handling does not raise, and then as the last effect; no other effect is a mark-read |
| Whatsapp.NewMessageEffects | routes/whatsapp.py:203-294 | the chat first when missing, then the message's effects; Whatsapp.NewMessageShape states their shape |
| Whatsapp.NewMessageShape | routes/whatsapp.py:203-288 | a message's effects concern its sender, and only the first may create a chat |
| Whatsapp.TextReplyRecorded | routes/whatsapp.py:216-288 | handling a text raises iff the bot's call does; when the bot answers, the effects are exactly: the user's turn, the bot's turn, the reply, the mark-read; when the call raises, the user's turn is the only effect |
| Whatsapp.MissingRespondSkipsReply | routes/whatsapp.py:216-288 | with the bot call raising, a text leaves only the user's turn, and a downloaded voice message only its transcript and saved file: no bot turn, no reply, no mark-read |
| Whatsapp.RespondingMessageCompletes | routes/whatsapp.py:212-288 | with a bot call that always returns, no message raises and each ends marked read |
| Whatsapp.AddThenTrimBounded | routes/whatsapp.py:192-199 | adding an id to a set within 1000 and trimming keeps it within 1000 |
| Whatsapp.NewestMayBeEvicted | routes/whatsapp.py:194-199 | the id just added can be among those evicted, so a redelivery after the trim is processed again |
| Whatsapp.HandledKeepsBound | routes/whatsapp.py:188-199 | handling any list of messages keeps the seen-id set within 1000 |
| Whatsapp.HandledKeepsChats | routes/whatsapp.py:203-209 | handling any list of messages keeps every chat created before use and created once |
| Whatsapp.HandledGrows | routes/whatsapp.py:181-294 | handling undoes no earlier chat or effect |
| Whatsapp.HandledUntrimmedIds | routes/whatsapp.py:188-209 | new, distinct ids with room to spare are all recorded, and their senders all get chats |
| Whatsapp.HandledUntrimmed | routes/whatsapp.py:172-294 | for new, distinct messages with room to spare, the outbox grows by exactly their effects in order, each sender's chat created at its first message |
| Whatsapp.WhatsappRoute.constructor | routes/whatsapp.py:19-21 | an empty id set, and the given chats |
| Whatsapp.WhatsappRoute.CollectMessages | routes/whatsapp.py:159-173 | the nested loops collect exactly the payload's messages, in order |
| Whatsapp.WhatsappRoute.Discard | routes/whatsapp.py:198-199 | the loop removes exactly the chosen ids |
| Whatsapp.WhatsappRoute.CheckAndRecord | routes/whatsapp.py:188-199 | a seen id is reported and nothing changes; a new one is added and the set trimmed by 500 once over 1000 |
| Whatsapp.WhatsappRoute.ProcessSingleMessage | routes/whatsapp.py:181-294 | a duplicate changes nothing; a new message appends its effects |
| Whatsapp.WhatsappRoute.HandleWebhookData | routes/whatsapp.py:151-178 | the state moves as handling the payload's messages in order does, each as one step of `process_single_message`; the id set stays within 1000, chats stay consistent and nothing earlier is undone; for new, distinct messages with room to spare, their ids are recorded and the outbox grows by exactly their effects in order |
| Whatsapp.WhatsappRoute.Webhook | routes/whatsapp.py:122-148 | answers 200, and the state moves as handling the payload's messages does, keeping the id bound and chat consistency; for new, distinct messages with room to spare, the outbox grows by exactly their effects |
| MinRoutes.Tracked | routes/min.py:31 | the remembering rule; MinRoutes.IndexStaysTracked states what it keeps |
| MinRoutes.BeforeRequest | routes/min.py:25-32 | the remembered page after a visit; MinRoutes.VisitThenIndex states its effect on the index |
| MinRoutes.Index | routes/min.py:56-61 | the index always redirects: to the remembered page when there is one other than the index and the header fragment, else to onboarding |
| MinRoutes.Onboard | routes/min.py:81-85 | onboarding forgets the remembered page; MinRoutes.OnboardingResetsIndex states its effect |
| MinRoutes.VisitThenIndex | routes/min.py:25-32 | visiting a page and then the index returns to it iff the rule tracks the page; otherwise the index is unchanged |
| MinRoutes.OnboardingResetsIndex | routes/min.py:81-85 | after onboarding the index leads to onboarding |
| MinRoutes.IndexStaysTracked | routes/min.py:25-61 | the remembered page is always a tracked one |
| MinRoutes.LoginRequired | routes/min.py:36-48 | the view runs iff the session has a user that exists; otherwise the visitor is sent to the index |
| MinRoutes.RandomUsername | routes/min.py:88-89 | "user_" followed by four digits |
| MinRoutes.UsernameEncodesDraw | routes/min.py:88-89 | the draw reads back from the name, so different draws give different names |
| MinRoutes.ViewChat | routes/min.py:155-186 | the chat is shown iff it exists and the user owns it; otherwise the session is reset and the visitor goes to onboarding |
| MinRoutes.OpenAt | routes/min.py:214-220 | one opening hour spans the day and time; MinRoutes.Available and MinRoutes.AvailableThroughout state its use |
| MinRoutes.Available | routes/min.py:214-220 | available iff some opening hour is today and spans now |
| MinRoutes.AvailableThroughout | routes/min.py:214-220 | an opening hour open at two times is open between them |
| MinRoutes.PingAdmin | routes/min.py:191-292 | GET goes back to the chat; an unknown room is 404; an already notified chat is 304; otherwise it is flagged, answered 204 (htmx) or 200, or 500 without an admin |
| MinRoutes.PingOnce | routes/min.py:226-232 | a second ping is 304 and changes nothing |
| MinRoutes.SendMessage | routes/min.py:407-490 | GET goes back to the chat; an empty form is 302; an unknown room is 404 "Chat not found" and changes nothing; another user's room is 403; success is 200 and is the only case that changes state |
| MinRoutes.PostedMessageStored | routes/min.py:433-477 | a posted message is stored verbatim after the chat's earlier messages, which are kept; the bot adds exactly one turn, its answer to "Subject of chat: <subject>" and the message, under the chat's bot name, iff the chat is not waiting for the admin, the bot answers and there is an admin; no other chat changes |
| MinRoutes.MissingRespondNoBotTurn | routes/min.py:456-477 | with the bot call raising, a posted message is stored and answered 200, and no bot turn is added |
| MinRoutes.OnlineUsers.constructor | routes/min.py:493-494 | the counter starts at zero |
| MinRoutes.OnlineUsers.OnJoin | routes/min.py:495-506 | a logged-in visitor adds one |
| MinRoutes.OnlineUsers.OnLeave | routes/min.py:508-524 | a known visitor in a room takes one off, never below zero |
| MinRoutes.OnlineCountSound | routes/min.py:495-524 | the counter never goes negative, and a counted visitor leaving brings it back |
| BotModel.GoogleModelName | models/bot.py:99-101 | each underscore becomes a dash; the length is kept and no underscore remains |
| BotModel.GoogleModelNameRoundTrip | models/bot.py:99-101 | the mapping is idempotent and undoes dashes-to-underscores |
| BotModel.DefaultSupported | models/bot.py:19-39 | the default key names gemini-2.0-flash, a supported model |
| BotModel.SystemPrompt | models/bot.py:114-122 | the prompt `create_chat` builds; BotModel.SystemPromptContents states what it contains |
| BotModel.SystemPromptContents | models/bot.py:114-122 | the prompt starts with the admin's prompt (else the base prompt) and names every allowed language (English by default) |
| BotModel.Extension | models/bot.py:153 | the extension is empty, or a dot followed by no dot |
| BotModel.ExtensionSpec | models/bot.py:153 | a non-empty extension is the name's suffix from its last dot, with some non-dot character before that dot; it is empty iff every dot of the name has only dots before it |
| BotModel.UrlOf | models/bot.py:160 | '*' becomes '/' and ".txt" is dropped; BotModel.TextFileTagged states its use |
| BotModel.ProcessFiles | models/bot.py:136-188 | the knowledge text and images; BotModel.FileImagesExact, BotModel.TextFileTagged and BotModel.KnowledgeReachesPrompt state what they hold |
| BotModel.FileImagesExact | models/bot.py:151-158 | exactly the files with image extensions that open are attached |
| BotModel.TextFileTagged | models/bot.py:159-165 | every readable .txt file contributes its `<url>` tag |
| BotModel.KnowledgeReachesPrompt | models/bot.py:136-188 | so that tag reaches the joined prompt text |
| BotModel.Bot.Start | models/bot.py:16-39 | a bot on a supported key with an empty chat store |
| BotModel.Bot.Create | models/bot.py:16-39 | the settings' model (else the default) is used; an unsupported one fails |
| BotModel.Bot.SetBot | models/bot.py:103-109 | accepted iff the key is supported; refusal keeps the key and reports "Unsupported model: <key>" |
| BotModel.Bot.CreateChat | models/bot.py:111-131 | the system prompt for the admin; the stored state carries the active model and the admin's knowledge |
| BotModel.Bot.LoadChat | models/bot.py:220-231 | a missing chat is an error; a stored one selects its saved model (else the default) |
| BotModel.Bot.SaveChat | models/bot.py:233-238 | the stored state is stamped with the active key and model |
| BotModel.Bot.Respond | models/bot.py:86-97 | succeeds iff the chat is stored with a supported model; then the reply returned is the session's, the saved model is selected, and the store is the old one with that chat re-saved under the active key and config, every other chat unchanged; a failure changes neither store nor key; the prompts never change |
| BotModel.Bot.ProcessFilesOf | models/bot.py:136-188 | the loops compute exactly the knowledge text and images |
| BotModel.Bot.ScanFiles | models/bot.py:151-167 | the files loop gives the text parts and images |
| BotModel.Bot.ScanDb | models/bot.py:169-186 | the db loop gives one part per parsed file with rows |
| BotModel.Bot.RowLinesOf | models/bot.py:177-181 | the generator's "key : value" lines, in order |
| BotModel.SaveThenLoadKeepsModel | models/bot.py:220-238 | a saved chat loads with the key it was saved under |
| WsApp.WithAdditionalData | ws-app.py:174-181 | a 200 reply extends the instruction with "Additional Data:\n" and the body; any other status is an error |
| WsApp.StreamStep | ws-app.py:188-214 | one Twilio message as a step of the stream generator; WsApp.StreamYieldsMedia and WsApp.StopCutsStream state what a run yields |
| WsApp.StreamYieldsMedia | ws-app.py:188-214 | before a stop, every media payload is yielded, decoded and in order, and nothing else is |
| WsApp.StopCutsStream | ws-app.py:208-210 | messages after "stop" are never read |
| WsApp.Gate | ws-app.py:289-304 | a frame goes to Twilio iff there is audio and a non-empty stream id, carrying that id |
| WsApp.Flush | ws-app.py:316-321 | a non-blank buffer becomes one stripped bot entry and is reset; a blank one is left |
| WsApp.FlushKeepsClean | ws-app.py:316-321 | flushing keeps every bot entry stripped and non-blank |
| WsApp.ContentStep | ws-app.py:307-336 | one server content's transcription handling; WsApp.ContentStepKeepsClean and WsApp.ContentStepUserWords state its properties |
| WsApp.SessionStep | ws-app.py:273-336 | one Gemini message: audio through the gate, then the transcription; WsApp.ToolCallEndsSession and WsApp.StoppedSessionIgnores state its properties |
| WsApp.SessionRun | ws-app.py:268-341 | the session loop over its messages; WsApp.SessionRunKeepsClean and WsApp.SessionUserWords state what it keeps |
| WsApp.ContentStepKeepsClean | ws-app.py:307-336 | one response keeps it |
| WsApp.SessionRunKeepsClean | ws-app.py:268-336 | a whole session keeps it |
| WsApp.FlushKeepsUserWords | ws-app.py:316-321 | a flush adds and drops no user turn |
| WsApp.ContentStepUserWords | ws-app.py:307-336 | one response adds exactly its input transcription to the user turns |
| WsApp.SessionUserWords | ws-app.py:268-348 | over a session the user turns are exactly the input transcriptions handled, in order |
| WsApp.InterruptedBotLoggedAfterUser | ws-app.py:307-321 | the bot's interrupted words are logged after the user's turn that cut them off |
| WsApp.Bridge.constructor | ws-app.py:41-172 | the bridge starts with the given instruction, no stream id, nothing sent, and the module's transcript list; the fetch `__init__` makes at ws-app.py:95 is WsApp.Bridge.GetSystemInstruction |
| WsApp.Bridge.GetSystemInstruction | ws-app.py:174-181 | ok iff the status is 200, and then the instruction is extended; otherwise it is unchanged |
| WsApp.Bridge.TwilioAudioStream | ws-app.py:183-214 | the loop leaves the stream id and yields exactly the stream model's |
| WsApp.Bridge.GeminiSession | ws-app.py:257-348 | the transcript list and sent frames are the session's, with leftovers flushed; a clean transcript stays clean |
| WsApp.StoppedSessionIgnores | ws-app.py:339-341 | after the loop ends nothing more is handled |
| WsApp.SilentBeforeStart | ws-app.py:296-304 | no audio reaches Twilio before a stream id is known |
| WsApp.ToolCallEndsSession | ws-app.py:273-307 | a message without server content (a tool call) ends the loop with the transcript as it was |
| ChatStore.FirstKeyed | services/facebook_sevice.py:111-117 | the first document with the key, with no earlier match; None iff none matches |
| ChatStore.RecentMessages | services/facebook_sevice.py:119-126 | a suffix of the messages: the last min(limit, n) for positive limit, all for 0, all but the first -limit for negative |
| ChatStore.PushedIsRecent | services/whatsapp_service.py:106-113 | a just-pushed message is the newest returned for any non-negative limit |
| ChatStore.FirstWithId | services/whatsapp_service.py:115-124 | the first message with the id; None iff none has it |
| ChatStore.FreshIdFound | services/facebook_sevice.py:128-137 | a message pushed with a new id is found by it |
| ChatStore.FindMessage | services/facebook_sevice.py:134-137 | the scan returns exactly the first message with the id |
| FacebookStore.NewDoc | services/facebook_sevice.py:20-31 | empty messages, admin off, both times now, `user_info or {}` |
| FacebookStore.NewMessage | services/facebook_sevice.py:73-98 | the record has the given fields; an audio path is set iff the type is audio with bytes, as files/facebook/<sender>/<id>.mp3 |
| FacebookStore.Toggled | services/facebook_sevice.py:33-40 | the table after the toggle, same length; FacebookStore.ToggleTwiceRestores and FacebookStore.ToggleTouchesOnlyTheFlag state its effect |
| FacebookStore.Pushed | services/facebook_sevice.py:101-107 | the table after `$push` and `$set`, same length; FacebookStore.PushedMessageReadBack states its effect |
| FacebookStore.Deleted | services/facebook_sevice.py:147-157 | the table after `delete_one`; FacebookStore.DeleteRemovesSoleChat states its effect |
| FacebookStore.ToggleTwiceRestores | services/facebook_sevice.py:33-40 | toggling twice restores the table |
| FacebookStore.ToggleTouchesOnlyTheFlag | services/facebook_sevice.py:33-40 | a toggle changes only the flag, and only on the sender's document |
| FacebookStore.PushedMessageReadBack | services/facebook_sevice.py:101-137 | a pushed message is the newest one read back, and is found by its id |
| FacebookStore.DeleteRemovesSoleChat | services/facebook_sevice.py:147-157 | a sender with one document has none after the delete |
| FacebookStore.CreatedIsFound | services/facebook_sevice.py:20-31 | a created document is found by its sender |
| FacebookStore.FacebookService.constructor | services/facebook_sevice.py:16-18 | an empty collection |
| FacebookStore.FacebookService.Create | services/facebook_sevice.py:20-31 | inserts and returns the new document |
| FacebookStore.FacebookService.ToggleEnabledAdmin | services/facebook_sevice.py:33-40 | negates the sender's flag; matched iff the sender exists |
| FacebookStore.FacebookService.AddMessage | services/facebook_sevice.py:54-109 | an unknown sender gives None and no change; otherwise the record is pushed, updated_at is set, and the id is returned |
| FacebookStore.FacebookService.GetMessages | services/facebook_sevice.py:119-126 | [] for an unknown sender, else the recent messages |
| FacebookStore.FacebookService.GetMessageById | services/facebook_sevice.py:128-137 | None for an unknown sender, else the first message with the id |
| FacebookStore.FacebookService.DeleteChat | services/facebook_sevice.py:147-157 | true iff a document was removed |
| WhatsappStore.NewDoc | services/whatsapp_service.py:20-28 | empty messages, admin_enabled false, and no admin_enable field |
| WhatsappStore.AudioExtension | services/whatsapp_service.py:71 | ".wav" iff the sender is "bot", else ".ogg" |
| WhatsappStore.NewMessage | services/whatsapp_service.py:57-82 | an audio path is set iff the type is audio with bytes, as files/<phone>/<id><ext> |
| WhatsappStore.NegatedField | services/whatsapp_service.py:34 | `$not` of the field, with a missing field read as false |
| WhatsappStore.Toggled | services/whatsapp_service.py:30-36 | the table after the toggle, same length; WhatsappStore.ToggleLeavesAdminEnabled and WhatsappStore.ToggleFreshChat state its effect |
| WhatsappStore.Pushed | services/whatsapp_service.py:86-93 | the table after `$push` and `$set`, same length; WhatsappStore.PushedMessageReadBack states its effect |
| WhatsappStore.ToggleLeavesAdminEnabled | services/whatsapp_service.py:26-36 | the toggle never changes admin_enabled |
| WhatsappStore.ToggleFreshChat | services/whatsapp_service.py:20-36 | on a new chat, the first toggle writes admin_enable true and the second false, while admin_enabled stays false |
| WhatsappStore.PushedMessageReadBack | services/whatsapp_service.py:86-124 | a pushed message is the newest one read back, and is found by its id |
| WhatsappStore.WhatsappService.constructor | services/whatsapp_service.py:16-18 | an empty collection |
| WhatsappStore.WhatsappService.Create | services/whatsapp_service.py:20-28 | appends the new document |
| WhatsappStore.WhatsappService.ToggleEnabledAdmin | services/whatsapp_service.py:30-36 | negates admin_enable on the first match |
| WhatsappStore.WhatsappService.AddMessage | services/whatsapp_service.py:38-95 | an unknown number gives None and no change; otherwise the record is pushed and its id returned |
| WhatsappStore.WhatsappService.GetMessages | services/whatsapp_service.py:106-113 | [] for an unknown number, else the recent messages |
| WhatsappStore.WhatsappService.GetMessageById | services/whatsapp_service.py:115-124 | None for an unknown number, else the first message with the id |
| CallStore.NewCall | services/call_service.py:25-36 | status ongoing, no end, empty transcript; start, audio and userdata are taken from data or defaulted (now, call_<id>.wav, the default userdata) |
| CallStore.ChunkEntries | services/call_service.py:40-47 | one entry per dict, in order, iff every dict has both keys |
| CallStore.EndTouchesOnlyStatusAndTime | services/call_service.py:53-63 | end_call changes only status and ended_at, and only on the call |
| CallStore.ChunksAccumulate | services/call_service.py:38-51 | two chunk pushes equal one push of both, in order |
| CallStore.StatusFilter | services/call_service.py:73-78 | the three status names filter by that status; anything else applies no filter |
| CallStore.Matching | services/call_service.py:70-92 | every matched call passes the filter, and each is drawn from the table |
| CallStore.MatchingComplete | services/call_service.py:70-92 | every call of the table that passes the filter is matched |
| CallStore.InsertByStart | services/call_service.py:93 | insertion adds exactly one call |
| CallStore.InsertKeepsNewestFirst | services/call_service.py:93 | insertion keeps newest-first order |
| CallStore.SortByStart | services/call_service.py:93 | a permutation of the calls, newest first |
| CallStore.Page | services/call_service.py:94-95 | the page starts at position `skip` and is contiguous: its i-th call is the list's (skip+i)-th; its length is what is left after `skip`, cut to the limit's absolute value when that is non-zero and smaller |
| CallStore.PageIsSlice | services/call_service.py:94-95 | a page keeps the order, holds only listed calls and at most `limit` of them for a positive limit; a page shorter than the limit runs to the end of the list; without a limit it is everything after `skip` |
| CallStore.QueryPage | services/call_service.py:70-95 | the filtered, sorted, skipped and limited calls; CallStore.ListingProperties states what they satisfy |
| CallStore.ListingProperties | services/call_service.py:65-102 | every listed call passes the filter, the list is newest first and within the limit, and it is drawn from the table |
| CallStore.FullListingHasEveryCall | services/call_service.py:65-102 | with no filter, skip or limit, every call is listed |
| CallStore.CountStatus | services/call_service.py:110-112 | a count never exceeds the table |
| CallStore.CountsAddUp | services/call_service.py:104-113 | the three status counts add up to the total, and each equals its filter's list length |
| CallStore.CallService.constructor | services/call_service.py:21-23 | an empty collection |
| CallStore.CallService.CreateCall | services/call_service.py:25-36 | appends the new call record |
| CallStore.CallService.AddChunk | services/call_service.py:38-51 | ok iff every dict has both keys, and then they are pushed to the call's transcript; otherwise nothing changes |
| CallStore.CallService.EndCall | services/call_service.py:53-63 | the call is ended now |
| CallStore.CallService.GetCallsWithLimitedData | services/call_service.py:65-102 | a negative skip is an error; otherwise the renaming loop lists each call of the query's page, in order |
| CallStore.CallService.GetCallCountsByFilter | services/call_service.py:104-113 | the total and the per-status counts, which add up |
| CallStore.CallService.GetFullCall | services/call_service.py:115-122 | None iff no call has the id, else the first call with that id, as `find_one` returns it |
| CallStore.CallService.DeleteCall | services/call_service.py:124-127 | true iff a call with the id existed; that first one is removed |

## Left out

- Asset bootstrap, inline CSS and HTML, Jinja placeholders, `htmx.process`, audio playback and the `dataLayer` push object are browser and library I/O, so they are left out (templates/js/init_chat.js:3-254, 629-637). The `dataLayer` push is modelled as a log of event names.
- The markup has no `resize-nw`, `resize-n` or `resize-w` element. At templates/js/init_chat.js:522 `getElementById` therefore returns null, and a real page would throw there and skip the later wiring. The model wires all handlers as if those elements existed.
- `scrollToBottom` is never defined, so the reveal callbacks at templates/js/init_chat.js:401 and 539 would raise. The throw comes after the panel has opened, so the model ignores it.
- The second `htmx:afterSwap` handler and `addUnsetClass` (templates/js/init_chat.js:584-627) do nothing the model can observe, so they are left out.
- Real timers are explicit events. The model does not order them by wall-clock time; any interleaving is allowed.
- Widget.ClampSize: the 80% ceiling is exact real arithmetic, and JavaScript floating-point rounding and the 'px' string formatting are not modelled.
- Widget.ScrollReached: float division by a zero or negative height is modelled by its sign, not as IEEE NaN or Infinity.
- Both webhooks call the network (Graph API send, download and mark-read) and the Gemini speech services. These are `Channel.Ports` functions or effects in the outbox.
- Audio transcoding (pydub, audioop, mu-law), file writes and the WAV recording of calls are foreign numeric code. They are represented by functions handed in, or by the path recorded.
- Facebook.FacebookRoute: the clock is read once per request, not once per message.
- The WhatsApp webhook's background `Thread` and `message_lock`: the handling is modelled as sequential, as it runs inside an app context. As written, the plain `Thread` (routes/whatsapp.py:138-140) carries no Flask app context, so `current_app._get_current_object()` at routes/whatsapp.py:155 would raise, the `except` at routes/whatsapp.py:175-178 would catch it, and no message would be handled; app.py is not part of this model, so this is read from the code and not modelled. Which 500 ids `list(set)[:500]` picks is arbitrary, so the model picks an arbitrary subset of 500.
- The routes' bot call is `Channel.Ports.respond` (on `/min`, a `respond` parameter), a function handed in whose None stands for a raised exception. `Channel.RespondMissing` is the source as written: the bot class defines only `responed` (models/bot.py:86), so every `bot.respond` call raises AttributeError. `Channel.RespondTotal` is a bot call that always returns, as `responed` does.
- Of the exceptions the routes can meet, only the bot call's and `ping_admin`'s `AttributeError` on `current_admin.email` without an admin (routes/min.py:276, the 500 of MinRoutes.PingAdmin) are modelled. The speech services, media download, conversion, `create_chat` and the database are modelled as returning; a malformed JSON body, which would also answer 500 on Messenger, is not modelled.
- `_count_tokens` (models/bot.py:240-256) is floating-point pricing, so it is left out. Gemini clients, pickling and image decoding are left out too; a chat state is a record in a map.
- `auth_user`, `login`, `new_chat`, `receive_audio_blob`, `audio_file` and the geo lookup in routes/min.py call external services or only render, so they are left out. `generate_random_username` is modelled for a drawn number.
- MinRoutes.PingAdmin: the email and push notifications are left out. The `available` flag is computed and never used, as in the source.
- `_call_aldar_api` and the tool-call responses (ws-app.py:224-255, 273-287) are network calls, so they are left out. A tool-call message only ends the loop, because it has no server content.
- WsApp.ContentStep: transcription texts are always strings in the model. In the source a None input text is appended to the transcript as it is (ws-app.py:307-312), and a None output text makes `chunk.strip()` raise (ws-app.py:323-326), which ends the session through the `except` at ws-app.py:339. Neither case is modelled.
- WsApp.Bridge.constructor: in the source `__init__` itself calls `get_system_instruction()` (ws-app.py:95), so a non-200 reply raises BrokenPipeError and no bridge is made. The model splits this into the constructor and WsApp.Bridge.GetSystemInstruction, whose `ok` false marks the aborted bridge.
- `send_call_log` (ws-app.py:358-377) sends nothing, so it is left out.
- Python's `str.strip` and `str.lower` are modelled on ASCII whitespace and letters only.
- CallStore.SortByStart: MongoDB leaves the order of equal start times unspecified. The model keeps table order for ties.
- CallStore.CallService.GetFullCall: renaming `started_at` to `call_time` only changes a key name, which a record type cannot show.
- `get_all_chats`, `update_user_info`, `get_chat_statistics` and `get_by_sender_id`/`get_by_phone_no` as standalone reads are covered by `ChatStore.FirstKeyed` or are plain reads, so they are left out.
- `routes/chat.py`, `routes/call.py`, `routes/__init__.py` and `models/t.py` have no logic worth modelling (a redirect, Twilio token minting, constants, a script).

## Findings

| source | as written | input that shows it | evidently intended | confidence | as-written member | corrected member |
|---|---|---|---|---|---|---|
| routes/facebook.py:178 | calls `current_app.bot.respond`, but the bot class defines only `responed` (models/bot.py:86), so the call raises AttributeError; the walk's one `try` then answers 500 | a page payload whose first event is a new text message | the answer is stored as the bot's turn and sent, the remaining events are handled, and the webhook answers 200 | not executed | Facebook.MissingRespondAborts | Facebook.RespondingWebhookSucceeds |
| routes/whatsapp.py:222 | calls `app.bot.respond`, which raises AttributeError; `process_single_message` catches it after the user's turn | any new text message | the answer is stored and sent, and the message is marked read | not executed | Whatsapp.MissingRespondSkipsReply | Whatsapp.RespondingMessageCompletes |
| routes/min.py:458 | calls `current_app.bot.respond`, which raises AttributeError; the `try` swallows it | a posted message to an owned chat that is not waiting for the admin | the bot's answer is stored after the user's message | not executed | MinRoutes.MissingRespondNoBotTurn | MinRoutes.PostedMessageStored |
