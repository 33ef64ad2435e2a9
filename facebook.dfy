/** The Facebook Messenger webhook (routes/facebook.py): message ids seen in
    the last hour are ignored, a chat is created for a new sender, a text is
    answered with text and a voice message with a voice reply. */
module Facebook {
  import opened Text
  import opened Audio
  import opened Channel

  /** `timedelta(hours=1)`, in microseconds (the resolution of `datetime`). */
  const MESSAGE_CACHE_DURATION: int := 60 * 60 * 1000000

  const DEFAULT_VERIFY_TOKEN: string := "your_fb_verify_token_here"

  /** Prefix put before the user's words in the bot prompt and in the stored
      voice transcript. */
  const ORIGIN: string := "Message from facebook: "

  // ---- The webhook payload -------------------------------------------------

  datatype Attachment = Attachment(kind: Option<string>, url: Option<string>)

  /** A message: its `mid`, and the `text` and `attachments` keys when present. */
  datatype Message = Message(mid: Option<string>, text: Option<string>,
                             attachments: Option<seq<Attachment>>)

  /** A messaging event: the sender id and the `message` key when present.
      Delivery and read events carry no message; the handler does nothing
      for them. */
  datatype Event = Event(sender: Option<string>, message: Option<Message>)

  datatype Entry = Entry(messaging: seq<Event>)

  datatype Payload = Payload(objectType: Option<string>, entry: seq<Entry>)

  // ---- Duplicate suppression ---------------------------------------------

  /** `processed_messages` after `cleanup_old_messages` at `now`: an id stays
      while its age is at most an hour. */
  function Cleanup(processed: map<Option<string>, int>, now: int): (r: map<Option<string>, int>)
    ensures forall k :: k in r <==> k in processed && now - processed[k] <= MESSAGE_CACHE_DURATION
    ensures forall k :: k in r ==> r[k] == processed[k]
  {
    map k | k in processed && now - processed[k] <= MESSAGE_CACHE_DURATION :: processed[k]
  }

  /** `is_duplicate_message(mid)` at `now`. */
  predicate IsDuplicate(processed: map<Option<string>, int>, mid: Option<string>, now: int)
  {
    mid in Cleanup(processed, now)
  }

  /** `processed_messages` after `is_duplicate_message(mid)` at `now`: cleaned
      up, and a new id recorded at `now`; a duplicate keeps its first time. */
  function Register(processed: map<Option<string>, int>, mid: Option<string>, now: int): (r: map<Option<string>, int>)
    ensures mid in r
    ensures IsDuplicate(processed, mid, now) ==> r == Cleanup(processed, now)
    ensures !IsDuplicate(processed, mid, now) ==> r == Cleanup(processed, now)[mid := now]
  {
    var kept := Cleanup(processed, now);
    if mid in kept then kept else kept[mid := now]
  }

  /** Cleaning up twice at the same time removes nothing more. */
  lemma CleanupIdempotent(processed: map<Option<string>, int>, now: int)
    ensures Cleanup(Cleanup(processed, now), now) == Cleanup(processed, now)
  {
  }

  /** A new id at `t` is a duplicate at a later call at `t2` exactly when no
      more than an hour separates the two. */
  lemma RepeatWithinHour(processed: map<Option<string>, int>, mid: Option<string>, t: int, t2: int)
    requires !IsDuplicate(processed, mid, t)
    ensures IsDuplicate(Register(processed, mid, t), mid, t2) <==> t2 - t <= MESSAGE_CACHE_DURATION
  {
    assert Register(processed, mid, t)[mid] == t;
  }

  /** A repeat does not renew an id: it expires an hour after its first
      arrival, however often it is seen. */
  lemma RepeatKeepsFirstTime(processed: map<Option<string>, int>, mid: Option<string>, t: int)
    requires IsDuplicate(processed, mid, t)
    ensures Register(processed, mid, t)[mid] == processed[mid]
  {
  }

  // ---- Handling one event ---------------------------------------------------

  /** Whether one attachment raises: an audio attachment that downloads is
      answered by the bot, and that call may raise. */
  predicate AttachmentRaises(sender: Option<string>, a: Attachment, ports: Ports)
  {
    a.kind == Some("audio") && Truthy(ports.download(a.url))
    && ports.respond(ports.transcribe(ports.download(a.url).value), sender).None?
  }

  /** One attachment: only audio is handled. The download must yield a
      non-empty file; the transcript is stored (with the origin prefix) and
      the file saved as .mp3; the bot answers the bare transcript, and the
      spoken answer, converted to MP3, is stored, saved and sent. When the
      conversion yields nothing the answer goes out as text; when the
      download yields nothing an apology does. When the bot's call raises,
      the user's turn and file are all that happen. */
  function AttachmentEffects(sender: Option<string>, a: Attachment, ports: Ports): seq<Effect>
  {
    if a.kind != Some("audio") then []
    else
      var audio := ports.download(a.url);
      if !Truthy(audio) then [SendText(sender, SORRY_AUDIO)]
      else
        var transcript := ports.transcribe(audio.value);
        var userTurn := [Store(ORIGIN + transcript, sender, User(sender), AudioMessage),
                         SaveAudio(sender, audio.value, ".mp3")];
        var reply := ports.respond(transcript, sender);
        if reply.None? then userTurn
        else
          var mp3 := ports.convert(ports.generateAudio(reply.value));
          userTurn
          + if Truthy(mp3) then
              [Store(reply.value, sender, Bot, AudioMessage), SaveAudio(sender, mp3.value, ".mp3"),
               SendAudio(sender, mp3.value)]
            else [SendText(sender, reply.value)]
  }

  /** Whether the attachment loop raises, folded from the last attachment. */
  predicate AttachmentsRaise(sender: Option<string>, as_: seq<Attachment>, ports: Ports)
    decreases |as_|
  {
    |as_| > 0
    && (AttachmentsRaise(sender, as_[..|as_| - 1], ports) || AttachmentRaises(sender, as_[|as_| - 1], ports))
  }

  /** The attachments in order, up to and including the first that raises,
      folded from the last one so that a loop over them extends the result. */
  function AttachmentsEffects(sender: Option<string>, as_: seq<Attachment>, ports: Ports): seq<Effect>
    decreases |as_|
  {
    if |as_| == 0 then []
    else
      var init := as_[..|as_| - 1];
      if AttachmentsRaise(sender, init, ports) then AttachmentsEffects(sender, init, ports)
      else AttachmentsEffects(sender, init, ports) + AttachmentEffects(sender, as_[|as_| - 1], ports)
  }

  /** One more attachment: the loop raises if it did already or this one
      does, and while it has not, the attachment's effects are appended. */
  lemma AttachmentsEffectsSnoc(sender: Option<string>, as_: seq<Attachment>, i: int, ports: Ports)
    requires 0 <= i < |as_|
    ensures AttachmentsRaise(sender, as_[..i + 1], ports)
         == (AttachmentsRaise(sender, as_[..i], ports) || AttachmentRaises(sender, as_[i], ports))
    ensures !AttachmentsRaise(sender, as_[..i], ports) ==>
      AttachmentsEffects(sender, as_[..i + 1], ports)
         == AttachmentsEffects(sender, as_[..i], ports) + AttachmentEffects(sender, as_[i], ports)
  {
    assert as_[..i + 1][..i] == as_[..i];
    assert as_[..i + 1][i] == as_[i];
  }

  /** The loop raises exactly when some attachment does. */
  lemma {:induction false} AttachmentsRaiseIff(sender: Option<string>, as_: seq<Attachment>, ports: Ports)
    ensures AttachmentsRaise(sender, as_, ports)
        <==> exists i :: 0 <= i < |as_| && AttachmentRaises(sender, as_[i], ports)
    decreases |as_|
  {
    if |as_| > 0 {
      var init := as_[..|as_| - 1];
      AttachmentsRaiseIff(sender, init, ports);
      if i :| 0 <= i < |as_| - 1 && AttachmentRaises(sender, as_[i], ports) {
        assert init[i] == as_[i];
      }
      if i :| 0 <= i < |init| && AttachmentRaises(sender, init[i], ports) {
        assert as_[i] == init[i];
      }
    }
  }

  /** Once an attachment has raised, the later ones are never handled. */
  lemma {:induction false} AttachmentsStopAtRaise(sender: Option<string>, as_: seq<Attachment>, k: int,
                                                  ports: Ports)
    requires 0 <= k <= |as_| && AttachmentsRaise(sender, as_[..k], ports)
    ensures AttachmentsRaise(sender, as_, ports)
    ensures AttachmentsEffects(sender, as_, ports) == AttachmentsEffects(sender, as_[..k], ports)
    decreases |as_|
  {
    if k == |as_| {
      assert as_[..k] == as_;
    } else {
      var init := as_[..|as_| - 1];
      assert init[..k] == as_[..k];
      AttachmentsStopAtRaise(sender, init, k, ports);
    }
  }

  /** Whether handling a message raises: the bot's call for a text, or
      some audio attachment. */
  predicate MessageRaises(sender: Option<string>, m: Message, ports: Ports)
  {
    if m.text.Some? then ports.respond(ORIGIN + m.text.value, sender).None?
    else m.attachments.Some? && AttachmentsRaise(sender, m.attachments.value, ports)
  }

  /** A message with a `text` key is answered as text, with the origin
      prefix in the prompt; otherwise its attachments are handled. When the
      bot's call raises, only the user's turn is stored. */
  function MessageEffects(sender: Option<string>, m: Message, ports: Ports): seq<Effect>
  {
    if m.text.Some? then
      var userTurn := [Store(m.text.value, sender, User(sender), TextMessage)];
      var reply := ports.respond(ORIGIN + m.text.value, sender);
      if reply.None? then userTurn
      else userTurn + [Store(reply.value, sender, Bot, TextMessage), SendText(sender, reply.value)]
    else if m.attachments.Some? then AttachmentsEffects(sender, m.attachments.value, ports)
    else []
  }

  /** The route's state: the module-level `processed_messages`, the senders
      that have a chat, and the effects so far. */
  datatype RouteState = RouteState(processed: map<Option<string>, int>, chats: set<Option<string>>,
                                   outbox: seq<Effect>)

  /** Where the walk over a payload has got to: the route's state, and
      whether an exception has ended the walk. */
  datatype Walk = Walk(st: RouteState, raised: bool)

  /** The effects of a new message: a chat first for a sender who has none. */
  function NewMessageEffects(chats: set<Option<string>>, sender: Option<string>, m: Message,
                             ports: Ports): seq<Effect>
  {
    (if sender in chats then [] else [CreateChat(sender)]) + MessageEffects(sender, m, ports)
  }

  /** One messaging event at time `now`. The id is registered and the chat
      created before the message is handled, so both stay when it raises. */
  function AfterEvent(st: RouteState, e: Event, ports: Ports, now: int): Walk
  {
    if e.message.None? then Walk(st, false)
    else
      var mid := e.message.value.mid;
      if IsDuplicate(st.processed, mid, now) then Walk(st.(processed := Cleanup(st.processed, now)), false)
      else
        Walk(RouteState(Register(st.processed, mid, now), st.chats + {e.sender},
                        st.outbox + NewMessageEffects(st.chats, e.sender, e.message.value, ports)),
             MessageRaises(e.sender, e.message.value, ports))
  }

  /** The events in order, until one raises. */
  function AfterEvents(w: Walk, es: seq<Event>, ports: Ports, now: int): Walk
    decreases |es|
  {
    if |es| == 0 || w.raised then w else AfterEvents(AfterEvent(w.st, es[0], ports, now), es[1..], ports, now)
  }

  /** The entries in order, until an event raises. */
  function AfterEntries(w: Walk, es: seq<Entry>, ports: Ports, now: int): Walk
    decreases |es|
  {
    if |es| == 0 || w.raised then w else AfterEntries(AfterEvents(w, es[0].messaging, ports, now), es[1..], ports, now)
  }

  /** The POST webhook: only `page` objects are looked at. The one `try`
      around the walk answers 500 once anything raises. */
  function AfterWebhook(st: RouteState, p: Payload, ports: Ports, now: int): Walk
  {
    if p.objectType == Some("page") then AfterEntries(Walk(st, false), p.entry, ports, now) else Walk(st, false)
  }

  // ---- Properties -----------------------------------------------------------

  /** A payload for another kind of object changes nothing. */
  lemma OtherObjectsIgnored(st: RouteState, p: Payload, ports: Ports, now: int)
    requires p.objectType != Some("page")
    ensures AfterWebhook(st, p, ports, now) == Walk(st, false)
  {
  }

  /** A message whose id was seen within the hour has no effect: nothing is
      stored, created or sent, and nothing raises. */
  lemma DuplicateHasNoEffect(st: RouteState, e: Event, ports: Ports, now: int)
    requires e.message.Some? && IsDuplicate(st.processed, e.message.value.mid, now)
    ensures AfterEvent(st, e, ports, now).st.outbox == st.outbox
    ensures AfterEvent(st, e, ports, now).st.chats == st.chats
    ensures !AfterEvent(st, e, ports, now).raised
  {
  }

  /** The same event delivered twice within the hour is handled once, also
      when the first delivery raised and the platform retries it. */
  lemma RedeliveryHandledOnce(st: RouteState, e: Event, ports: Ports, now: int)
    requires e.message.Some?
    ensures AfterEvent(AfterEvent(st, e, ports, now).st, e, ports, now).st.outbox
            == AfterEvent(st, e, ports, now).st.outbox
    ensures !AfterEvent(AfterEvent(st, e, ports, now).st, e, ports, now).raised
  {
    var st1 := AfterEvent(st, e, ports, now).st;
    assert IsDuplicate(st1.processed, e.message.value.mid, now);
  }

  /** All of one message's effects are about its sender, and they create no
      chat. */
  lemma {:induction false} AttachmentsAboutSender(sender: Option<string>, as_: seq<Attachment>, ports: Ports)
    ensures forall i :: 0 <= i < |AttachmentsEffects(sender, as_, ports)| ==>
      ChatOf(AttachmentsEffects(sender, as_, ports)[i]) == sender
      && !AttachmentsEffects(sender, as_, ports)[i].CreateChat?
    decreases |as_|
  {
    if |as_| > 0 {
      AttachmentsAboutSender(sender, as_[..|as_| - 1], ports);
    }
  }

  lemma MessageAboutSender(sender: Option<string>, m: Message, ports: Ports)
    ensures forall i :: 0 <= i < |MessageEffects(sender, m, ports)| ==>
      ChatOf(MessageEffects(sender, m, ports)[i]) == sender
      && !MessageEffects(sender, m, ports)[i].CreateChat?
  {
    if m.text.None? && m.attachments.Some? {
      AttachmentsAboutSender(sender, m.attachments.value, ports);
    }
  }

  /** A new message's effects are about its sender, and only the first of
      them may create a chat, for a sender who had none. */
  lemma NewMessageShape(chats: set<Option<string>>, sender: Option<string>, m: Message, ports: Ports)
    ensures ForSender(NewMessageEffects(chats, sender, m, ports), chats, sender)
  {
    MessageAboutSender(sender, m, ports);
    var rest := MessageEffects(sender, m, ports);
    var created: seq<Effect> := if sender in chats then [] else [CreateChat(sender)];
    assert NewMessageEffects(chats, sender, m, ports) == created + rest;
    forall k | |created| <= k < |created + rest| ensures (created + rest)[k] == rest[k - |created|] {
    }
  }

  lemma AfterEventKeepsChats(st: RouteState, e: Event, ports: Ports, now: int)
    requires ChatsConsistent(st.chats, st.outbox)
    ensures ChatsConsistent(AfterEvent(st, e, ports, now).st.chats, AfterEvent(st, e, ports, now).st.outbox)
  {
    if e.message.Some? && !IsDuplicate(st.processed, e.message.value.mid, now) {
      NewMessageShape(st.chats, e.sender, e.message.value, ports);
      AppendKeepsChats(st.chats, st.outbox, e.sender, NewMessageEffects(st.chats, e.sender, e.message.value, ports));
    }
  }

  lemma {:induction false} AfterEventsKeepsChats(w: Walk, es: seq<Event>, ports: Ports, now: int)
    requires ChatsConsistent(w.st.chats, w.st.outbox)
    ensures ChatsConsistent(AfterEvents(w, es, ports, now).st.chats, AfterEvents(w, es, ports, now).st.outbox)
    decreases |es|
  {
    if |es| > 0 && !w.raised {
      AfterEventKeepsChats(w.st, es[0], ports, now);
      AfterEventsKeepsChats(AfterEvent(w.st, es[0], ports, now), es[1..], ports, now);
    }
  }

  lemma {:induction false} AfterEntriesKeepsChats(w: Walk, es: seq<Entry>, ports: Ports, now: int)
    requires ChatsConsistent(w.st.chats, w.st.outbox)
    ensures ChatsConsistent(AfterEntries(w, es, ports, now).st.chats, AfterEntries(w, es, ports, now).st.outbox)
    decreases |es|
  {
    if |es| > 0 && !w.raised {
      AfterEventsKeepsChats(w, es[0].messaging, ports, now);
      AfterEntriesKeepsChats(AfterEvents(w, es[0].messaging, ports, now), es[1..], ports, now);
    }
  }

  /** Over any sequence of webhook calls, a chat exists before anything is
      stored, saved or sent for its sender, and each sender gets one chat;
      a call that raises keeps this too. */
  lemma WebhookKeepsChats(st: RouteState, p: Payload, ports: Ports, now: int)
    requires ChatsConsistent(st.chats, st.outbox)
    ensures ChatsConsistent(AfterWebhook(st, p, ports, now).st.chats, AfterWebhook(st, p, ports, now).st.outbox)
  {
    if p.objectType == Some("page") {
      AfterEntriesKeepsChats(Walk(st, false), p.entry, ports, now);
    }
  }

  /** A text is stored as the user's turn first. When the bot answers, the
      answer is stored as the bot's turn and then sent, and nothing raises;
      when the bot's call raises, the user's turn is all that happens. */
  lemma TextReplyRecorded(sender: Option<string>, m: Message, ports: Ports)
    requires m.text.Some?
    ensures RepliesRecorded(MessageEffects(sender, m, ports))
    ensures MessageEffects(sender, m, ports)[0] == Store(m.text.value, sender, User(sender), TextMessage)
    ensures MessageRaises(sender, m, ports) <==> ports.respond(ORIGIN + m.text.value, sender).None?
    ensures ports.respond(ORIGIN + m.text.value, sender).Some? ==>
      var answer := ports.respond(ORIGIN + m.text.value, sender).value;
      Store(answer, sender, Bot, TextMessage) in MessageEffects(sender, m, ports)
      && SendText(sender, answer) in MessageEffects(sender, m, ports)
    ensures ports.respond(ORIGIN + m.text.value, sender).None? ==> |MessageEffects(sender, m, ports)| == 1
  {
    var es := MessageEffects(sender, m, ports);
    if ports.respond(ORIGIN + m.text.value, sender).Some? {
      assert es[2].SendText? && es[1].Store?;
    }
  }

  /** When the spoken answer cannot be converted, the answer is sent as text
      without ever being stored: the chat history misses the bot's turn. */
  lemma UnconvertedReplyNotRecorded(sender: Option<string>, a: Attachment, ports: Ports)
    requires a.kind == Some("audio") && Truthy(ports.download(a.url)) && !AttachmentRaises(sender, a, ports)
    requires !Truthy(ports.convert(ports.generateAudio(
      ports.respond(ports.transcribe(ports.download(a.url).value), sender).value)))
    ensures !RepliesRecorded(AttachmentEffects(sender, a, ports))
  {
    var es := AttachmentEffects(sender, a, ports);
    assert es[2].SendText? && !es[0].author.Bot? && !es[1].Store?;
  }

  /** As written, the bot's call always raises. A new text message as the
      payload's first event then creates the sender's chat when missing and
      stores the user's turn, and that is all: the webhook answers 500, no
      bot turn is stored, nothing is sent, and no later event is handled. */
  lemma MissingRespondAborts(st: RouteState, p: Payload, ports: Ports, now: int)
    requires RespondMissing(ports)
    requires p.objectType == Some("page") && |p.entry| > 0 && |p.entry[0].messaging| > 0
    requires p.entry[0].messaging[0].message.Some? && p.entry[0].messaging[0].message.value.text.Some?
    requires !IsDuplicate(st.processed, p.entry[0].messaging[0].message.value.mid, now)
    ensures AfterWebhook(st, p, ports, now).raised
    ensures var e := p.entry[0].messaging[0];
      AfterWebhook(st, p, ports, now).st.outbox
      == st.outbox + (if e.sender in st.chats then [] else [CreateChat(e.sender)])
         + [Store(e.message.value.text.value, e.sender, User(e.sender), TextMessage)]
  {
    var e := p.entry[0].messaging[0];
    var w := AfterEvent(st, e, ports, now);
    assert ports.respond(ORIGIN + e.message.value.text.value, e.sender).None?;
    assert w.raised;
    assert AfterEvents(w, p.entry[0].messaging[1..], ports, now) == w;
    assert AfterEvents(Walk(st, false), p.entry[0].messaging, ports, now) == w;
    assert AfterEntries(w, p.entry[1..], ports, now) == w;
  }

  /** With a bot whose call returns, no attachment loop raises. */
  lemma {:induction false} RespondingAttachmentsSucceed(sender: Option<string>, as_: seq<Attachment>,
                                                        ports: Ports)
    requires RespondTotal(ports)
    ensures !AttachmentsRaise(sender, as_, ports)
    decreases |as_|
  {
    if |as_| > 0 {
      RespondingAttachmentsSucceed(sender, as_[..|as_| - 1], ports);
      var a := as_[|as_| - 1];
      if a.kind == Some("audio") && Truthy(ports.download(a.url)) {
        assert ports.respond(ports.transcribe(ports.download(a.url).value), sender).Some?;
      }
    }
  }

  lemma RespondingEventSucceeds(st: RouteState, e: Event, ports: Ports, now: int)
    requires RespondTotal(ports)
    ensures !AfterEvent(st, e, ports, now).raised
  {
    if e.message.Some? {
      var m := e.message.value;
      if m.text.Some? {
        assert ports.respond(ORIGIN + m.text.value, e.sender).Some?;
      } else if m.attachments.Some? {
        RespondingAttachmentsSucceed(e.sender, m.attachments.value, ports);
      }
    }
  }

  lemma {:induction false} RespondingEventsSucceed(w: Walk, es: seq<Event>, ports: Ports, now: int)
    requires RespondTotal(ports) && !w.raised
    ensures !AfterEvents(w, es, ports, now).raised
    decreases |es|
  {
    if |es| > 0 {
      RespondingEventSucceeds(w.st, es[0], ports, now);
      RespondingEventsSucceed(AfterEvent(w.st, es[0], ports, now), es[1..], ports, now);
    }
  }

  lemma {:induction false} RespondingEntriesSucceed(w: Walk, es: seq<Entry>, ports: Ports, now: int)
    requires RespondTotal(ports) && !w.raised
    ensures !AfterEntries(w, es, ports, now).raised
    decreases |es|
  {
    if |es| > 0 {
      RespondingEventsSucceed(w, es[0].messaging, ports, now);
      RespondingEntriesSucceed(AfterEvents(w, es[0].messaging, ports, now), es[1..], ports, now);
    }
  }

  /** With a bot whose call returns, as `responed` does, the webhook walks
      the whole payload and answers 200. */
  lemma RespondingWebhookSucceeds(st: RouteState, p: Payload, ports: Ports, now: int)
    requires RespondTotal(ports)
    ensures !AfterWebhook(st, p, ports, now).raised
  {
    if p.objectType == Some("page") {
      RespondingEntriesSucceed(Walk(st, false), p.entry, ports, now);
    }
  }

  // ---- The route as code ------------------------------------------------------

  class FacebookRoute {
    var processed: map<Option<string>, int>
    var chats: set<Option<string>>
    var outbox: seq<Effect>

    ghost function State(): RouteState
      reads this
    {
      RouteState(processed, chats, outbox)
    }

    constructor(chats: set<Option<string>>)
      ensures State() == RouteState(map[], chats, [])
    {
      processed := map[];
      this.chats := chats;
      outbox := [];
    }

    /** `cleanup_old_messages`: collect the ids older than an hour, then
        delete them one by one. */
    method CleanupOldMessages(now: int)
      modifies this
      ensures processed == Cleanup(old(processed), now)
      ensures chats == old(chats) && outbox == old(outbox)
    {
      var pending := processed.Keys;
      var expired: set<Option<string>> := {};
      while pending != {}
        invariant processed == old(processed) && chats == old(chats) && outbox == old(outbox)
        invariant pending <= processed.Keys
        invariant forall k :: k in expired <==>
          k in processed && k !in pending && now - processed[k] > MESSAGE_CACHE_DURATION
        decreases |pending|
      {
        var k :| k in pending;
        if now - processed[k] > MESSAGE_CACHE_DURATION {
          expired := expired + {k};
        }
        pending := pending - {k};
      }
      while expired != {}
        invariant expired <= processed.Keys
        invariant chats == old(chats) && outbox == old(outbox)
        invariant forall k :: k in expired ==> k in old(processed) && now - old(processed)[k] > MESSAGE_CACHE_DURATION
        invariant forall k :: k in processed <==>
          k in old(processed) && (k in expired || now - old(processed)[k] <= MESSAGE_CACHE_DURATION)
        invariant forall k :: k in processed ==> processed[k] == old(processed)[k]
        decreases |expired|
      {
        var k :| k in expired;
        processed := processed - {k};
        expired := expired - {k};
      }
    }

    /** `is_duplicate_message`. */
    method IsDuplicateMessage(mid: Option<string>, now: int) returns (dup: bool)
      modifies this
      ensures dup == IsDuplicate(old(processed), mid, now)
      ensures processed == Register(old(processed), mid, now)
      ensures chats == old(chats) && outbox == old(outbox)
    {
      CleanupOldMessages(now);
      if mid in processed {
        return true;
      }
      processed := processed[mid := now];
      return false;
    }

    /** The attachment loop of the webhook; an attachment that raises ends
        it. */
    method HandleAttachments(sender: Option<string>, as_: seq<Attachment>, ports: Ports) returns (raised: bool)
      modifies this
      ensures raised == AttachmentsRaise(sender, as_, ports)
      ensures outbox == old(outbox) + AttachmentsEffects(sender, as_, ports)
      ensures processed == old(processed) && chats == old(chats)
    {
      var sent: seq<Effect> := [];
      var i := 0;
      raised := false;
      while i < |as_| && !raised
        invariant 0 <= i <= |as_|
        invariant sent == AttachmentsEffects(sender, as_[..i], ports)
        invariant raised == AttachmentsRaise(sender, as_[..i], ports)
        invariant unchanged(this)
      {
        AttachmentsEffectsSnoc(sender, as_, i, ports);
        sent := sent + AttachmentEffects(sender, as_[i], ports);
        raised := AttachmentRaises(sender, as_[i], ports);
        i := i + 1;
      }
      if raised {
        AttachmentsStopAtRaise(sender, as_, i, ports);
      } else {
        assert as_[..i] == as_;
      }
      outbox := outbox + sent;
    }

    /** One messaging event; `raised` tells whether handling it raised. */
    method HandleEvent(e: Event, ports: Ports, now: int) returns (raised: bool)
      modifies this
      ensures AfterEvent(old(State()), e, ports, now) == Walk(State(), raised)
    {
      if e.message.None? {
        return false;
      }
      var m := e.message.value;
      var dup := IsDuplicateMessage(m.mid, now);
      if dup {
        return false;
      }
      ghost var o0 := outbox;
      ghost var pre: seq<Effect> := if e.sender in chats then [] else [CreateChat(e.sender)];
      ghost var eff := MessageEffects(e.sender, m, ports);
      assert NewMessageEffects(old(chats), e.sender, m, ports) == pre + eff;
      if e.sender !in chats {
        outbox := outbox + [CreateChat(e.sender)];
        chats := chats + {e.sender};
      }
      assert outbox == o0 + pre;
      raised := false;
      if m.text.Some? {
        outbox := outbox + MessageEffects(e.sender, m, ports);
        raised := MessageRaises(e.sender, m, ports);
      } else if m.attachments.Some? {
        raised := HandleAttachments(e.sender, m.attachments.value, ports);
      }
      assert outbox == (o0 + pre) + eff;
      ConcatAssoc(o0, pre, eff);
    }

    /** The POST webhook, walking entries and their messaging events in
        order until one raises; it answers 500 when one did, else 200. */
    method Webhook(p: Payload, ports: Ports, now: int) returns (status: int)
      modifies this
      ensures State() == AfterWebhook(old(State()), p, ports, now).st
      ensures status == (if AfterWebhook(old(State()), p, ports, now).raised then 500 else 200)
    {
      var raised := false;
      if p.objectType == Some("page") {
        var i := 0;
        while i < |p.entry| && !raised
          invariant 0 <= i <= |p.entry|
          invariant AfterEntries(Walk(old(State()), false), p.entry, ports, now)
                    == AfterEntries(Walk(State(), raised), p.entry[i..], ports, now)
        {
          var events := p.entry[i].messaging;
          var j := 0;
          ghost var before := State();
          while j < |events| && !raised
            invariant 0 <= j <= |events|
            invariant AfterEvents(Walk(before, false), events, ports, now)
                      == AfterEvents(Walk(State(), raised), events[j..], ports, now)
          {
            assert events[j..][1..] == events[j + 1..];
            raised := HandleEvent(events[j], ports, now);
            j := j + 1;
          }
          assert p.entry[i..][1..] == p.entry[i + 1..];
          i := i + 1;
        }
      }
      return if raised then 500 else 200;
    }
  }
}
