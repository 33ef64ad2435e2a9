/** The WhatsApp Business webhook (routes/whatsapp.py): the POST answers at
    once and the payload is handled afterwards, message by message, with a
    bounded set of seen message ids for duplicate suppression. */
module Whatsapp {
  import opened Text
  import opened Audio
  import opened Channel

  const DEFAULT_VERIFY_TOKEN: string := "your_verify_token_here"

  /** The seen-id set is trimmed once it holds more than this many ids ... */
  const MAX_PROCESSED: int := 1000
  /** ... by removing this many of them. */
  const EVICT_COUNT: int := 500

  // ---- The webhook payload -------------------------------------------------

  /** One message: `id`, `from`, `type`, the text body when `text.body` is
      present, and the audio media id when `audio.id` is present. */
  datatype WaMessage = WaMessage(id: Option<string>, from: Option<string>, kind: Option<string>,
                                 textBody: Option<string>, audioId: Option<string>)

  /** A change: the `messages` of its `value`, when the key is present. */
  datatype Change = Change(messages: Option<seq<WaMessage>>)

  datatype Entry = Entry(changes: seq<Change>)

  datatype Payload = Payload(objectType: Option<string>, entry: seq<Entry>)

  /** The messages of a list of changes, in order; changes without a
      `messages` key contribute none. */
  function ChangesMessages(cs: seq<Change>): seq<WaMessage>
    decreases |cs|
  {
    if |cs| == 0 then []
    else
      var last := cs[|cs| - 1];
      ChangesMessages(cs[..|cs| - 1]) + (if last.messages.Some? then last.messages.value else [])
  }

  function EntriesMessages(es: seq<Entry>): seq<WaMessage>
    decreases |es|
  {
    if |es| == 0 then [] else EntriesMessages(es[..|es| - 1]) + ChangesMessages(es[|es| - 1].changes)
  }

  /** The messages `handle_webhook_data` processes, in order: those of every
      change of every entry of a `whatsapp_business_account` payload. */
  function PayloadMessages(p: Payload): seq<WaMessage>
  {
    if p.objectType == Some("whatsapp_business_account") then EntriesMessages(p.entry) else []
  }

  /** A message in a change of an entry is processed. */
  lemma {:induction false} ChangeMessageCollected(cs: seq<Change>, c: int, k: int)
    requires 0 <= c < |cs| && cs[c].messages.Some? && 0 <= k < |cs[c].messages.value|
    ensures cs[c].messages.value[k] in ChangesMessages(cs)
    decreases |cs|
  {
    if c < |cs| - 1 {
      assert cs[..|cs| - 1][c] == cs[c];
      ChangeMessageCollected(cs[..|cs| - 1], c, k);
    }
  }

  /** Only messages of the payload are processed. */
  lemma {:induction false} CollectedMessagesComeFromChanges(cs: seq<Change>, m: WaMessage)
    requires m in ChangesMessages(cs)
    ensures exists c :: 0 <= c < |cs| && cs[c].messages.Some? && m in cs[c].messages.value
    decreases |cs|
  {
    var init := cs[..|cs| - 1];
    var last := cs[|cs| - 1];
    if m in ChangesMessages(init) {
      CollectedMessagesComeFromChanges(init, m);
      var c :| 0 <= c < |init| && init[c].messages.Some? && m in init[c].messages.value;
      assert cs[c] == init[c];
    } else {
      assert last.messages.Some? && m in last.messages.value;
    }
  }

  // ---- Handling one message -------------------------------------------------

  /** The text body, `''` when the message has none. */
  function Body(m: WaMessage): string
  {
    if m.textBody.Some? then m.textBody.value else ""
  }

  /** Whether handling a message raises: the bot's call for a text, or for
      a voice message that downloads. */
  predicate MessageRaises(m: WaMessage, ports: Ports)
  {
    if m.kind == Some("text") then ports.respond(Body(m), m.from).None?
    else if m.kind == Some("audio") then
      Truthy(ports.download(m.audioId))
      && ports.respond(ports.transcribe(ports.download(m.audioId).value), m.from).None?
    else false
  }

  /** The answer by message type. A text is stored, answered and the answer
      stored and sent. A voice message must download to a non-empty file;
      its transcript is stored and the file saved as .ogg, the bot answers
      the transcript, and the spoken answer, converted to OGG Opus, is
      stored, saved and sent; when the conversion yields nothing the answer
      goes out as text, when the download yields nothing an apology does.
      Other types get no answer. When the bot's call raises, the answer
      stops after the user's turn. */
  function Answer(m: WaMessage, ports: Ports): seq<Effect>
  {
    var from := m.from;
    if m.kind == Some("text") then
      var userTurn := [Store(Body(m), from, User(from), TextMessage)];
      var reply := ports.respond(Body(m), from);
      if reply.None? then userTurn
      else userTurn + [Store(reply.value, from, Bot, TextMessage), SendText(from, reply.value)]
    else if m.kind == Some("audio") then
      var audio := ports.download(m.audioId);
      if !Truthy(audio) then [SendText(from, SORRY_AUDIO)]
      else
        var transcript := ports.transcribe(audio.value);
        var userTurn := [Store(transcript, from, User(from), AudioMessage), SaveAudio(from, audio.value, ".ogg")];
        var reply := ports.respond(transcript, from);
        if reply.None? then userTurn
        else
          var ogg := ports.convert(ports.generateAudio(reply.value));
          userTurn
          + if Truthy(ogg) then
              [Store(reply.value, from, Bot, AudioMessage), SaveAudio(from, ogg.value, ".ogg"),
               SendAudio(from, ogg.value)]
            else [SendText(from, reply.value)]
    else []
  }

  /** A message's effects: its answer, then marking it read. An exception
      is caught by `process_single_message` itself, so a message that
      raises is never marked read. */
  function MessageEffects(m: WaMessage, ports: Ports): seq<Effect>
  {
    Answer(m, ports) + if MessageRaises(m, ports) then [] else [MarkRead(m.id)]
  }

  /** A message is marked read exactly when handling it does not raise, and
      then as its last effect. */
  lemma MarkedReadUnlessRaised(m: WaMessage, ports: Ports)
    ensures !MessageRaises(m, ports) ==>
      |MessageEffects(m, ports)| > 0 && MessageEffects(m, ports)[|MessageEffects(m, ports)| - 1] == MarkRead(m.id)
    ensures forall k :: 0 <= k < |MessageEffects(m, ports)| && MessageEffects(m, ports)[k].MarkRead? ==>
      k == |MessageEffects(m, ports)| - 1 && !MessageRaises(m, ports)
  {
    var a := Answer(m, ports);
    assert forall k :: 0 <= k < |a| ==> !a[k].MarkRead?;
  }

  /** The effects of a message not seen before: the chat first, for a sender
      who has none. */
  function NewMessageEffects(chats: set<Option<string>>, m: WaMessage, ports: Ports): seq<Effect>
  {
    (if m.from in chats then [] else [CreateChat(m.from)]) + MessageEffects(m, ports)
  }

  /** One message's effects concern its sender only. */
  lemma NewMessageShape(chats: set<Option<string>>, m: WaMessage, ports: Ports)
    ensures ForSender(NewMessageEffects(chats, m, ports), chats, m.from)
  {
    var rest := MessageEffects(m, ports);
    var created: seq<Effect> := if m.from in chats then [] else [CreateChat(m.from)];
    assert NewMessageEffects(chats, m, ports) == created + rest;
    assert forall k :: |created| <= k < |created + rest| ==> (created + rest)[k] == rest[k - |created|];
  }

  /** A text is stored as the user's turn first. When the bot answers, the
      answer is stored as the bot's turn, sent, and the message marked read;
      when the bot's call raises, the user's turn is all that happens. */
  lemma TextReplyRecorded(m: WaMessage, ports: Ports)
    requires m.kind == Some("text")
    ensures RepliesRecorded(MessageEffects(m, ports))
    ensures MessageEffects(m, ports)[0] == Store(Body(m), m.from, User(m.from), TextMessage)
    ensures MessageRaises(m, ports) <==> ports.respond(Body(m), m.from).None?
    ensures ports.respond(Body(m), m.from).Some? ==>
      MessageEffects(m, ports)
      == [Store(Body(m), m.from, User(m.from), TextMessage),
          Store(ports.respond(Body(m), m.from).value, m.from, Bot, TextMessage),
          SendText(m.from, ports.respond(Body(m), m.from).value), MarkRead(m.id)]
    ensures ports.respond(Body(m), m.from).None? ==> |MessageEffects(m, ports)| == 1
  {
    var es := MessageEffects(m, ports);
    if ports.respond(Body(m), m.from).Some? {
      assert es[2].SendText? && es[1].Store? && !es[3].SendText?;
    }
  }

  /** As written, the bot's call always raises: a text leaves only the
      user's turn, with no bot turn, no reply and no mark-read, and a voice
      message that downloads leaves only the transcript and the saved file. */
  lemma MissingRespondSkipsReply(m: WaMessage, ports: Ports)
    requires RespondMissing(ports)
    ensures m.kind == Some("text") ==>
      MessageEffects(m, ports) == [Store(Body(m), m.from, User(m.from), TextMessage)]
    ensures m.kind == Some("audio") && Truthy(ports.download(m.audioId)) ==>
      var audio := ports.download(m.audioId).value;
      MessageEffects(m, ports)
      == [Store(ports.transcribe(audio), m.from, User(m.from), AudioMessage), SaveAudio(m.from, audio, ".ogg")]
  {
    if m.kind == Some("text") {
      assert ports.respond(Body(m), m.from).None?;
    } else if m.kind == Some("audio") && Truthy(ports.download(m.audioId)) {
      assert ports.respond(ports.transcribe(ports.download(m.audioId).value), m.from).None?;
    }
  }

  /** With a bot whose call returns, as `responed` does, every message is
      answered and marked read. */
  lemma RespondingMessageCompletes(m: WaMessage, ports: Ports)
    requires RespondTotal(ports)
    ensures !MessageRaises(m, ports)
    ensures |MessageEffects(m, ports)| > 0 && MessageEffects(m, ports)[|MessageEffects(m, ports)| - 1] == MarkRead(m.id)
  {
    if m.kind == Some("text") {
      assert ports.respond(Body(m), m.from).Some?;
    } else if m.kind == Some("audio") && Truthy(ports.download(m.audioId)) {
      assert ports.respond(ports.transcribe(ports.download(m.audioId).value), m.from).Some?;
    }
  }

  /** The seen-id set after trimming `full`: unchanged while it holds at most
      1000 ids; otherwise some 500 of them are gone. Which ones depends on the
      set's iteration order, which is not the arrival order: the id just
      added may be among them. */
  predicate Trimmed(full: set<Option<string>>, kept: set<Option<string>>)
  {
    if |full| > MAX_PROCESSED then kept <= full && |kept| == |full| - EVICT_COUNT else kept == full
  }

  /** Adding one id to a set within the bound and trimming stays within
      the bound. */
  lemma AddThenTrimBounded(before: set<Option<string>>, id: Option<string>, kept: set<Option<string>>)
    requires |before| <= MAX_PROCESSED && Trimmed(before + {id}, kept)
    ensures |kept| <= MAX_PROCESSED
  {
    if id !in before {
      assert |before + {id}| == |before| + 1;
    } else {
      assert before + {id} == before;
    }
  }

  /** Removing a subset removes exactly its size. */
  lemma RemoveSubsetSize<T>(full: set<T>, drop: set<T>)
    requires drop <= full
    ensures |full - drop| == |full| - |drop|
  {
    assert full == (full - drop) + drop;
  }

  /** The id just added can be among the evicted ones: the trimming does not
      remove "the oldest half". */
  lemma NewestMayBeEvicted(full: set<Option<string>>, newest: Option<string>)
    requires newest in full && |full| > MAX_PROCESSED
    ensures exists kept :: Trimmed(full, kept) && newest !in kept
  {
    var rest := full - {newest};
    SubsetOfSize(rest, |full| - EVICT_COUNT);
    var kept :| kept <= rest && |kept| == |full| - EVICT_COUNT;
    assert Trimmed(full, kept);
  }

  /** Any set has subsets of every size up to its own. */
  lemma {:induction false} SubsetOfSize<T>(s: set<T>, n: nat)
    requires n <= |s|
    ensures exists t :: t <= s && |t| == n
    decreases n
  {
    if n == 0 {
      var empty: set<T> := {};
      assert empty <= s && |empty| == 0;
    } else {
      var x :| x in s;
      SubsetOfSize(s - {x}, n - 1);
      var t :| t <= s - {x} && |t| == n - 1;
      assert t + {x} <= s && |t + {x}| == n;
    }
  }

  // ---- Handling a payload ----------------------------------------------------

  /** The route's state: the module-level `processed_messages`, the senders
      that have a chat, and the effects so far. */
  datatype RouteState = RouteState(processed: set<Option<string>>, chats: set<Option<string>>,
                                   outbox: seq<Effect>)

  /** `process_single_message` takes `s` to `t`: a seen id changes nothing;
      a new one is recorded, the set trimmed, the sender's chat ensured and
      the message's effects appended. */
  predicate ProcessedStep(s: RouteState, m: WaMessage, t: RouteState, ports: Ports)
  {
    if m.id in s.processed then t == s
    else
      Trimmed(s.processed + {m.id}, t.processed) && t.chats == s.chats + {m.from}
      && t.outbox == s.outbox + NewMessageEffects(s.chats, m, ports)
  }

  /** Handling `ms` in order takes `s` to `t`, each message by one step. The
      trimming is the only freedom: which ids it drops. */
  ghost predicate Handled(s: RouteState, ms: seq<WaMessage>, t: RouteState, ports: Ports)
    decreases |ms|, 1
  {
    if |ms| == 0 then t == s else HandledThen(s, ms[..|ms| - 1], ms[|ms| - 1], t, ports)
  }

  /** Handling `init` reaches some state from which `last` is one step to `t`. */
  ghost predicate HandledThen(s: RouteState, init: seq<WaMessage>, last: WaMessage, t: RouteState, ports: Ports)
    decreases |init| + 1, 0
  {
    exists mid :: Handled(s, init, mid, ports) && ProcessedStep(mid, last, t, ports)
  }

  /** The ids of a list of messages. */
  function Ids(ms: seq<WaMessage>): set<Option<string>>
    decreases |ms|
  {
    if |ms| == 0 then {} else Ids(ms[..|ms| - 1]) + {ms[|ms| - 1].id}
  }

  /** The senders of a list of messages. */
  function Froms(ms: seq<WaMessage>): set<Option<string>>
    decreases |ms|
  {
    if |ms| == 0 then {} else Froms(ms[..|ms| - 1]) + {ms[|ms| - 1].from}
  }

  /** A list's ids are those of its messages. */
  lemma {:induction false} IdsMembers(ms: seq<WaMessage>, id: Option<string>)
    ensures id in Ids(ms) <==> exists i :: 0 <= i < |ms| && ms[i].id == id
    decreases |ms|
  {
    if |ms| > 0 {
      var init := ms[..|ms| - 1];
      IdsMembers(init, id);
      if i :| 0 <= i < |init| && init[i].id == id {
        assert ms[i] == init[i];
      }
      if i :| 0 <= i < |ms| - 1 && ms[i].id == id {
        assert init[i] == ms[i];
      }
    }
  }

  /** The effects of new messages handled in order, each sender's chat
      created at its first message only. */
  function AllEffects(chats: set<Option<string>>, ms: seq<WaMessage>, ports: Ports): seq<Effect>
    decreases |ms|
  {
    if |ms| == 0 then []
    else
      var init := ms[..|ms| - 1];
      AllEffects(chats, init, ports) + NewMessageEffects(chats + Froms(init), ms[|ms| - 1], ports)
  }

  /** No id repeats, and none was seen before. */
  predicate AllNew(s: RouteState, ms: seq<WaMessage>)
  {
    (forall i :: 0 <= i < |ms| ==> ms[i].id !in s.processed)
    && (forall i, j :: 0 <= i < j < |ms| ==> ms[i].id != ms[j].id)
  }

  lemma {:induction false} IdsSize(ms: seq<WaMessage>)
    ensures |Ids(ms)| <= |ms|
    decreases |ms|
  {
    if |ms| > 0 {
      IdsSize(ms[..|ms| - 1]);
    }
  }

  /** Handling keeps the seen-id set within 1000. */
  lemma {:induction false} HandledKeepsBound(s: RouteState, ms: seq<WaMessage>, t: RouteState, ports: Ports)
    requires Handled(s, ms, t, ports) && |s.processed| <= MAX_PROCESSED
    ensures |t.processed| <= MAX_PROCESSED
    decreases |ms|
  {
    if |ms| > 0 {
      var mid :| Handled(s, ms[..|ms| - 1], mid, ports) && ProcessedStep(mid, ms[|ms| - 1], t, ports);
      HandledKeepsBound(s, ms[..|ms| - 1], mid, ports);
      if ms[|ms| - 1].id !in mid.processed {
        AddThenTrimBounded(mid.processed, ms[|ms| - 1].id, t.processed);
      }
    }
  }

  /** Handling keeps every chat created before use and created once. */
  lemma {:induction false} HandledKeepsChats(s: RouteState, ms: seq<WaMessage>, t: RouteState, ports: Ports)
    requires Handled(s, ms, t, ports) && ChatsConsistent(s.chats, s.outbox)
    ensures ChatsConsistent(t.chats, t.outbox)
    decreases |ms|
  {
    if |ms| > 0 {
      var m := ms[|ms| - 1];
      var mid :| Handled(s, ms[..|ms| - 1], mid, ports) && ProcessedStep(mid, m, t, ports);
      HandledKeepsChats(s, ms[..|ms| - 1], mid, ports);
      if m.id !in mid.processed {
        NewMessageShape(mid.chats, m, ports);
        AppendKeepsChats(mid.chats, mid.outbox, m.from, NewMessageEffects(mid.chats, m, ports));
      }
    }
  }

  /** Handling undoes no earlier chat or effect. */
  lemma {:induction false} HandledGrows(s: RouteState, ms: seq<WaMessage>, t: RouteState, ports: Ports)
    requires Handled(s, ms, t, ports)
    ensures s.chats <= t.chats && s.outbox <= t.outbox
    decreases |ms|
  {
    if |ms| > 0 {
      var mid :| Handled(s, ms[..|ms| - 1], mid, ports) && ProcessedStep(mid, ms[|ms| - 1], t, ports);
      HandledGrows(s, ms[..|ms| - 1], mid, ports);
    }
  }

  /** A new id with room to spare: the step records it without trimming. */
  lemma UntrimmedStep(s: RouteState, m: WaMessage, t: RouteState, ports: Ports)
    requires ProcessedStep(s, m, t, ports) && m.id !in s.processed && |s.processed| < MAX_PROCESSED
    ensures t.processed == s.processed + {m.id}
    ensures t.chats == s.chats + {m.from}
    ensures t.outbox == s.outbox + NewMessageEffects(s.chats, m, ports)
  {
    assert |s.processed + {m.id}| == |s.processed| + 1;
  }

  /** The last of a list of new messages is new after its predecessors. */
  lemma AllNewSnoc(s: RouteState, ms: seq<WaMessage>)
    requires |ms| > 0 && AllNew(s, ms)
    ensures AllNew(s, ms[..|ms| - 1])
    ensures ms[|ms| - 1].id !in s.processed + Ids(ms[..|ms| - 1])
    ensures |Ids(ms[..|ms| - 1])| <= |ms| - 1
  {
    var init := ms[..|ms| - 1];
    assert forall i :: 0 <= i < |init| ==> init[i] == ms[i];
    IdsMembers(init, ms[|ms| - 1].id);
    IdsSize(init);
  }

  /** New ids with room to spare are all recorded, and their senders all
      get chats. */
  lemma {:induction false} HandledUntrimmedIds(s: RouteState, ms: seq<WaMessage>, t: RouteState, ports: Ports)
    requires Handled(s, ms, t, ports) && AllNew(s, ms) && |s.processed| + |ms| <= MAX_PROCESSED
    ensures t.processed == s.processed + Ids(ms)
    ensures t.chats == s.chats + Froms(ms)
    decreases |ms|
  {
    if |ms| > 0 {
      var init := ms[..|ms| - 1];
      var m := ms[|ms| - 1];
      var mid :| Handled(s, init, mid, ports) && ProcessedStep(mid, m, t, ports);
      AllNewSnoc(s, ms);
      HandledUntrimmedIds(s, init, mid, ports);
      UntrimmedStep(mid, m, t, ports);
    }
  }

  /** Messages all new, and few enough that no trim happens, are each
      handled: their ids are recorded, their senders get chats, and the
      outbox grows by exactly their effects in order. */
  lemma {:induction false} HandledUntrimmed(s: RouteState, ms: seq<WaMessage>, t: RouteState, ports: Ports)
    requires Handled(s, ms, t, ports) && AllNew(s, ms) && |s.processed| + |ms| <= MAX_PROCESSED
    ensures t.processed == s.processed + Ids(ms)
    ensures t.chats == s.chats + Froms(ms)
    ensures t.outbox == s.outbox + AllEffects(s.chats, ms, ports)
    decreases |ms|
  {
    HandledUntrimmedIds(s, ms, t, ports);
    if |ms| > 0 {
      var init := ms[..|ms| - 1];
      var m := ms[|ms| - 1];
      var mid :| Handled(s, init, mid, ports) && ProcessedStep(mid, m, t, ports);
      AllNewSnoc(s, ms);
      HandledUntrimmed(s, init, mid, ports);
      UntrimmedStep(mid, m, t, ports);
      ConcatAssoc(s.outbox, AllEffects(s.chats, init, ports), NewMessageEffects(s.chats + Froms(init), m, ports));
    }
  }

  // ---- The route as code ------------------------------------------------------

  class WhatsappRoute {
    var processed: set<Option<string>>
    var chats: set<Option<string>>
    var outbox: seq<Effect>

    ghost function State(): RouteState
      reads this
    {
      RouteState(processed, chats, outbox)
    }

    constructor(chats: set<Option<string>>)
      ensures processed == {} && this.chats == chats && outbox == []
    {
      processed := {};
      this.chats := chats;
      outbox := [];
    }

    /** The walk of `handle_webhook_data` over entries, changes and their
        messages. */
    static method CollectMessages(p: Payload) returns (ms: seq<WaMessage>)
      ensures ms == PayloadMessages(p)
    {
      ms := [];
      if p.objectType != Some("whatsapp_business_account") {
        return;
      }
      var i := 0;
      while i < |p.entry|
        invariant 0 <= i <= |p.entry|
        invariant ms == EntriesMessages(p.entry[..i])
      {
        var changes := p.entry[i].changes;
        var j := 0;
        ghost var before := ms;
        while j < |changes|
          invariant 0 <= j <= |changes|
          invariant ms == before + ChangesMessages(changes[..j])
        {
          assert changes[..j + 1][..j] == changes[..j];
          if changes[j].messages.Some? {
            ms := ms + changes[j].messages.value;
          }
          j := j + 1;
        }
        assert changes[..j] == changes;
        assert p.entry[..i + 1][..i] == p.entry[..i];
        i := i + 1;
      }
      assert p.entry[..i] == p.entry;
    }

    /** `for msg_id in to_remove: processed_messages.discard(msg_id)`. */
    method Discard(toRemove: set<Option<string>>)
      modifies this
      ensures processed == old(processed) - toRemove
      ensures chats == old(chats) && outbox == old(outbox)
    {
      var pending := toRemove;
      while pending != {}
        invariant pending <= toRemove
        invariant processed == old(processed) - (toRemove - pending)
        invariant chats == old(chats) && outbox == old(outbox)
        decreases |pending|
      {
        var x :| x in pending;
        processed := processed - {x};
        pending := pending - {x};
      }
    }

    /** The duplicate check under `message_lock`: a seen id is skipped;
        otherwise it is added, and once more than 1000 ids are held, 500 of
        them are discarded one by one. */
    method CheckAndRecord(id: Option<string>) returns (dup: bool)
      modifies this
      ensures dup == (id in old(processed))
      ensures dup ==> processed == old(processed)
      ensures !dup ==> Trimmed(old(processed) + {id}, processed)
      ensures chats == old(chats) && outbox == old(outbox)
    {
      if id in processed {
        return true;
      }
      processed := processed + {id};
      if |processed| > MAX_PROCESSED {
        SubsetOfSize(processed, EVICT_COUNT);
        var toRemove :| toRemove <= processed && |toRemove| == EVICT_COUNT;
        RemoveSubsetSize(processed, toRemove);
        Discard(toRemove);
      }
      return false;
    }

    /** `process_single_message`. */
    method ProcessSingleMessage(m: WaMessage, ports: Ports)
      modifies this
      ensures m.id in old(processed) ==> processed == old(processed) && chats == old(chats) && outbox == old(outbox)
      ensures m.id !in old(processed) ==>
        Trimmed(old(processed) + {m.id}, processed)
        && chats == old(chats) + {m.from}
        && outbox == old(outbox) + NewMessageEffects(old(chats), m, ports)
    {
      var dup := CheckAndRecord(m.id);
      if dup {
        return;
      }
      if m.from !in chats {
        outbox := outbox + [CreateChat(m.from)];
        chats := chats + {m.from};
      }
      outbox := outbox + MessageEffects(m, ports);
    }

    /** `handle_webhook_data`: every message of the payload in order, each
        as one step of `process_single_message`. The seen-id bound and the
        consistency of chats hold throughout, and no earlier effect is
        undone. */
    method HandleWebhookData(p: Payload, ports: Ports)
      modifies this
      ensures Handled(old(State()), PayloadMessages(p), State(), ports)
      ensures |old(processed)| <= MAX_PROCESSED ==> |processed| <= MAX_PROCESSED
      ensures ChatsConsistent(old(chats), old(outbox)) ==> ChatsConsistent(chats, outbox)
      ensures old(chats) <= chats && old(outbox) <= outbox
      ensures AllNew(old(State()), PayloadMessages(p)) && |old(processed)| + |PayloadMessages(p)| <= MAX_PROCESSED ==>
        processed == old(processed) + Ids(PayloadMessages(p))
        && outbox == old(outbox) + AllEffects(old(chats), PayloadMessages(p), ports)
    {
      var ms := CollectMessages(p);
      var i := 0;
      while i < |ms|
        invariant 0 <= i <= |ms|
        invariant Handled(old(State()), ms[..i], State(), ports)
      {
        ghost var prev := State();
        ProcessSingleMessage(ms[i], ports);
        assert ProcessedStep(prev, ms[i], State(), ports);
        assert ms[..i + 1][..i] == ms[..i] && ms[..i + 1][i] == ms[i];
        i := i + 1;
      }
      assert ms[..i] == ms;
      if |old(processed)| <= MAX_PROCESSED {
        HandledKeepsBound(old(State()), ms, State(), ports);
      }
      if ChatsConsistent(old(chats), old(outbox)) {
        HandledKeepsChats(old(State()), ms, State(), ports);
      }
      HandledGrows(old(State()), ms, State(), ports);
      if AllNew(old(State()), ms) && |old(processed)| + |ms| <= MAX_PROCESSED {
        HandledUntrimmed(old(State()), ms, State(), ports);
      }
    }

    /** The POST webhook answers 200 at once; the payload is handled after. */
    method Webhook(p: Payload, ports: Ports) returns (status: int)
      modifies this
      ensures status == 200
      ensures Handled(old(State()), PayloadMessages(p), State(), ports)
      ensures |old(processed)| <= MAX_PROCESSED ==> |processed| <= MAX_PROCESSED
      ensures ChatsConsistent(old(chats), old(outbox)) ==> ChatsConsistent(chats, outbox)
      ensures AllNew(old(State()), PayloadMessages(p)) && |old(processed)| + |PayloadMessages(p)| <= MAX_PROCESSED ==>
        outbox == old(outbox) + AllEffects(old(chats), PayloadMessages(p), ports)
    {
      status := 200;
      HandleWebhookData(p, ports);
    }
  }
}
