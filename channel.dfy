/** What the Facebook Messenger and WhatsApp webhooks (routes/facebook.py,
    routes/whatsapp.py) share: the subscription handshake, and the effects a
    webhook call has on the chat store and on the platform. The bot, the
    speech services, the media download and the audio converters are
    functions handed in as `Ports`. */
module Channel {
  import opened Text
  import opened Audio

  /** An HTTP response: body and status code. */
  datatype Reply = Reply(body: string, status: int)

  /** `os.getenv(name, default)`: the environment's value when set. */
  function ConfiguredToken(env: Option<string>, default: string): (t: string)
    ensures env.Some? ==> t == env.value
    ensures env.None? ==> t == default
  {
    if env.Some? then env.value else default
  }

  /** `verify_webhook`: the platform's `hub.mode`, `hub.verify_token` and
      `hub.challenge` query parameters, each absent or present. The challenge
      is echoed with 200 exactly when the mode is "subscribe" and the token is
      the configured one; otherwise "Forbidden" with 403. Echoing an absent
      challenge hands Flask a `None` body, which it answers with 500. */
  function VerifyWebhook(mode: Option<string>, token: Option<string>, challenge: Option<string>,
                         verifyToken: string): (r: Reply)
    ensures r.status == 200 <==>
      mode == Some("subscribe") && token == Some(verifyToken) && challenge.Some?
    ensures r.status == 200 ==> r.body == challenge.value
    ensures r.status == 403 <==> !(mode == Some("subscribe") && token == Some(verifyToken))
    ensures r.status == 403 ==> r.body == "Forbidden"
    ensures r.status in {200, 403, 500}
  {
    if mode == Some("subscribe") && token == Some(verifyToken) then
      if challenge.Some? then Reply(challenge.value, 200) else Reply("", 500)
    else Reply("Forbidden", 403)
  }

  /** Who a stored message is from: the platform user (by id) or the bot. */
  datatype Author = User(id: Option<string>) | Bot

  datatype Kind = TextMessage | AudioMessage

  /** The effects of handling one webhook event, in the order they happen. */
  datatype Effect =
    | CreateChat(chat: Option<string>)
      // the channel service's `create` and the bot's `create_chat`
    | Store(content: string, chat: Option<string>, author: Author, kind: Kind)
      // the channel service's `add_message`
    | SaveAudio(chat: Option<string>, audio: seq<byte>, extension: string)
      // writing an audio file under files/
    | SendText(to: Option<string>, text: string)
    | SendAudio(to: Option<string>, audio: seq<byte>)
    | MarkRead(id: Option<string>)

  /** The code outside the routes that a webhook calls: the bot's reply to a
      prompt in a chat (None when the call raises), speech to text, text to
      speech, the media download (None when it fails) and the platform's
      audio conversion (None when it fails). */
  datatype Ports = Ports(
    respond: (string, Option<string>) -> Option<string>,
    transcribe: seq<byte> -> string,
    generateAudio: string -> seq<byte>,
    download: Option<string> -> Option<seq<byte>>,
    convert: seq<byte> -> Option<seq<byte>>)

  /** The bot as the routes call it: they call `bot.respond`, but the Bot
      class defines only `responed` (models/bot.py:86), so every call raises
      `AttributeError`. */
  ghost predicate RespondMissing(ports: Ports)
  {
    forall prompt, chat :: ports.respond(prompt, chat).None?
  }

  /** A bot whose reply call always returns, as `responed` does for a
      stored chat. */
  ghost predicate RespondTotal(ports: Ports)
  {
    forall prompt, chat :: ports.respond(prompt, chat).Some?
  }

  /** Python's truth value of an optional byte string: present and non-empty. */
  predicate Truthy(b: Option<seq<byte>>)
  {
    b.Some? && |b.value| > 0
  }

  const SORRY_AUDIO: string := "Sorry, I couldn't process your audio message."

  /** Every message the bot sends back is in the chat's history as a bot
      message stored before it. */
  predicate RepliesRecorded(effects: seq<Effect>)
  {
    forall j :: 0 <= j < |effects| && effects[j].SendText? ==>
      exists i :: 0 <= i < j && effects[i].Store? && effects[i].author == Bot
        && effects[i].content == effects[j].text && effects[i].chat == effects[j].to
  }

  /** The chat an effect is about; marking a message read names none. */
  function ChatOf(e: Effect): Option<string>
  {
    match e
    case CreateChat(c) => c
    case Store(_, c, _, _) => c
    case SaveAudio(c, _, _) => c
    case SendText(to, _) => to
    case SendAudio(to, _) => to
    case MarkRead(_) => None
  }

  /** Every effect that names a chat names one that exists, and no chat is
      created twice. */
  predicate ChatsConsistent(chats: set<Option<string>>, outbox: seq<Effect>)
  {
    (forall i :: 0 <= i < |outbox| ==> outbox[i].MarkRead? || ChatOf(outbox[i]) in chats)
    && (forall i, j :: 0 <= i < j < |outbox| && outbox[i].CreateChat? && outbox[j].CreateChat?
          ==> outbox[i].chat != outbox[j].chat)
  }

  /** The effects of one message from `sender`: all about the sender, and
      only the first may create a chat, for a sender who had none. */
  predicate ForSender(added: seq<Effect>, chats: set<Option<string>>, sender: Option<string>)
  {
    forall k :: 0 <= k < |added| ==>
      (added[k].MarkRead? || ChatOf(added[k]) == sender)
      && (added[k].CreateChat? ==> k == 0 && sender !in chats)
  }

  /** Handling one message from a sender, who has a chat afterwards, keeps
      the chats consistent. */
  lemma AppendKeepsChats(chats: set<Option<string>>, outbox: seq<Effect>, sender: Option<string>,
                         added: seq<Effect>)
    requires ChatsConsistent(chats, outbox) && ForSender(added, chats, sender)
    ensures ChatsConsistent(chats + {sender}, outbox + added)
  {
    var r := outbox + added;
    assert forall i :: |outbox| <= i < |r| ==> r[i] == added[i - |outbox|];
  }
}
