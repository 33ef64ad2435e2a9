/** The WhatsApp chat collection (services/whatsapp_service.py): one
    document per phone number. The clock and message ids are parameters. */
module WhatsappStore {
  import opened Text
  import opened ChatStore
  import Audio

  const AUDIO_DIR: string := "files"
  const BOT_SENDER: string := "bot"

  /** A `WhatsappUser` document. `adminEnable` is the field, absent until the
      first toggle, that `toggle_enabled_admin` writes: it is not the
      `admin_enabled` field `create` sets. */
  datatype WaDoc = WaDoc(phoneNo: string, messages: seq<StoredMessage>, createdAt: int, updatedAt: int,
                         adminEnabled: bool, adminEnable: Option<bool>)

  function PhoneKey(d: WaDoc): string { d.phoneNo }

  /** The document `create` inserts. */
  function NewDoc(phoneNo: string, now: int): (d: WaDoc)
    ensures d.phoneNo == phoneNo && d.messages == [] && !d.adminEnabled && d.adminEnable.None?
    ensures d.createdAt == now && d.updatedAt == now
  {
    WaDoc(phoneNo, [], now, now, false, None)
  }

  /** The saved file's extension: WAV for the bot's audio, OGG for a user's. */
  function AudioExtension(sender: string): (e: string)
    ensures e == ".wav" <==> sender == BOT_SENDER
    ensures e == ".ogg" <==> sender != BOT_SENDER
  {
    if sender == BOT_SENDER then ".wav" else ".ogg"
  }

  /** The record `add_message` pushes. */
  function NewMessage(message: string, phoneNo: string, sender: string, kind: string,
                      audio: Option<seq<Audio.byte>>, messageId: string, now: int): (m: StoredMessage)
    ensures m.id == messageId && m.message == message && m.sender == sender && m.time == now && m.kind == kind
    ensures m.audioPath.Some? <==> SavesAudio(kind, audio)
    ensures m.audioPath.Some? ==> m.audioPath.value == AUDIO_DIR + "/" + phoneNo + "/" + messageId + AudioExtension(sender)
  {
    StoredMessage(messageId, message, sender, now, kind,
                  if SavesAudio(kind, audio) then Some(AUDIO_DIR + "/" + phoneNo + "/" + messageId + AudioExtension(sender))
                  else None)
  }

  /** `{"$not": "$admin_enable"}`: a missing field reads as false. */
  function NegatedField(f: Option<bool>): (r: Option<bool>)
    ensures r.Some?
    ensures r.value <==> !(f == Some(true))
  {
    Some(!(f.Some? && f.value))
  }

  /** The table after `toggle_enabled_admin`. */
  function Toggled(docs: seq<WaDoc>, phoneNo: string): (r: seq<WaDoc>)
    ensures |r| == |docs|
  {
    var i := FirstKeyed(docs, PhoneKey, phoneNo);
    if i.None? then docs else docs[i.value := docs[i.value].(adminEnable := NegatedField(docs[i.value].adminEnable))]
  }

  /** The table after `add_message`'s `$push` and `$set`. */
  function Pushed(docs: seq<WaDoc>, phoneNo: string, m: StoredMessage, now: int): (r: seq<WaDoc>)
    ensures |r| == |docs|
  {
    var i := FirstKeyed(docs, PhoneKey, phoneNo);
    if i.None? then docs
    else docs[i.value := docs[i.value].(messages := docs[i.value].messages + [m], updatedAt := now)]
  }

  function MessagesOf(docs: seq<WaDoc>, phoneNo: string, limit: int): (r: seq<StoredMessage>)
    ensures FirstKeyed(docs, PhoneKey, phoneNo).None? ==> r == []
  {
    var i := FirstKeyed(docs, PhoneKey, phoneNo);
    if i.None? then [] else RecentMessages(docs[i.value].messages, limit)
  }

  /** The toggle never reaches `admin_enabled`: every document keeps the
      value `create` gave it, however often it is toggled. */
  lemma ToggleLeavesAdminEnabled(docs: seq<WaDoc>, phoneNo: string)
    ensures forall j :: 0 <= j < |docs| ==> Toggled(docs, phoneNo)[j].adminEnabled == docs[j].adminEnabled
    ensures forall j :: 0 <= j < |docs| ==> Toggled(docs, phoneNo)[j].phoneNo == docs[j].phoneNo
  {
  }

  /** On a freshly created chat, the first toggle sets `admin_enable` true and
      the second sets it false, while `admin_enabled` stays false. */
  lemma ToggleFreshChat(docs: seq<WaDoc>, phoneNo: string, now: int)
    requires forall j :: 0 <= j < |docs| ==> docs[j].phoneNo != phoneNo
    ensures var t1 := Toggled(docs + [NewDoc(phoneNo, now)], phoneNo);
      var t2 := Toggled(t1, phoneNo);
      t1[|docs|].adminEnable == Some(true) && t2[|docs|].adminEnable == Some(false)
      && !t1[|docs|].adminEnabled && !t2[|docs|].adminEnabled
  {
    var all := docs + [NewDoc(phoneNo, now)];
    assert forall j :: 0 <= j < |docs| ==> PhoneKey(all[j]) != phoneNo;
    assert PhoneKey(all[|docs|]) == phoneNo;
    var f := FirstKeyed(all, PhoneKey, phoneNo);
    assert f.Some? && !(f.value < |docs|);
    var t1 := Toggled(all, phoneNo);
    SameKeysSameFirst(t1, all, PhoneKey, phoneNo);
  }

  /** After a message is pushed for a known number, it is the newest one
      `get_messages` returns for any non-negative limit, and, its id being
      new, `get_message_by_id` finds it. */
  lemma PushedMessageReadBack(docs: seq<WaDoc>, phoneNo: string, m: StoredMessage, now: int, limit: int)
    requires FirstKeyed(docs, PhoneKey, phoneNo).Some? && limit >= 0
    requires var i := FirstKeyed(docs, PhoneKey, phoneNo).value;
      forall k :: 0 <= k < |docs[i].messages| ==> docs[i].messages[k].id != m.id
    ensures var p := Pushed(docs, phoneNo, m, now);
      var r := MessagesOf(p, phoneNo, limit);
      |r| > 0 && r[|r| - 1] == m
      && FirstWithId(p[FirstKeyed(p, PhoneKey, phoneNo).value].messages, m.id) == Some(m)
  {
    var i := FirstKeyed(docs, PhoneKey, phoneNo).value;
    var p := Pushed(docs, phoneNo, m, now);
    SameKeysSameFirst(p, docs, PhoneKey, phoneNo);
    PushedIsRecent(docs[i].messages, m, limit);
    FreshIdFound(docs[i].messages, m);
  }

  class WhatsappService {
    var docs: seq<WaDoc>

    constructor()
      ensures docs == []
    {
      docs := [];
    }

    /** `create`. */
    method Create(phoneNo: string, now: int)
      modifies this
      ensures docs == old(docs) + [NewDoc(phoneNo, now)]
    {
      docs := docs + [NewDoc(phoneNo, now)];
    }

    /** `toggle_enabled_admin`; `matched` is the update's matched count. */
    method ToggleEnabledAdmin(phoneNo: string) returns (matched: bool)
      modifies this
      ensures matched <==> FirstKeyed(old(docs), PhoneKey, phoneNo).Some?
      ensures docs == Toggled(old(docs), phoneNo)
    {
      var i := FirstKeyed(docs, PhoneKey, phoneNo);
      if i.Some? {
        docs := docs[i.value := docs[i.value].(adminEnable := NegatedField(docs[i.value].adminEnable))];
      }
      return i.Some?;
    }

    /** `add_message`: None and no change for an unknown number; otherwise the
        record is pushed and its id returned. */
    method AddMessage(message: string, phoneNo: string, sender: string, kind: string,
                      audio: Option<seq<Audio.byte>>, messageId: string, now: int) returns (r: Option<string>)
      modifies this
      ensures FirstKeyed(old(docs), PhoneKey, phoneNo).None? ==> r.None? && docs == old(docs)
      ensures FirstKeyed(old(docs), PhoneKey, phoneNo).Some? ==>
        (r == Some(messageId)
         && docs == Pushed(old(docs), phoneNo, NewMessage(message, phoneNo, sender, kind, audio, messageId, now), now))
    {
      var i := FirstKeyed(docs, PhoneKey, phoneNo);
      if i.None? {
        return None;
      }
      var m := NewMessage(message, phoneNo, sender, kind, audio, messageId, now);
      docs := docs[i.value := docs[i.value].(messages := docs[i.value].messages + [m], updatedAt := now)];
      return Some(messageId);
    }

    /** `get_messages`. */
    function GetMessages(phoneNo: string, limit: int): (r: seq<StoredMessage>)
      reads this
      ensures FirstKeyed(docs, PhoneKey, phoneNo).None? ==> r == []
      ensures FirstKeyed(docs, PhoneKey, phoneNo).Some? ==>
        r == RecentMessages(docs[FirstKeyed(docs, PhoneKey, phoneNo).value].messages, limit)
    {
      MessagesOf(docs, phoneNo, limit)
    }

    /** `get_message_by_id`. */
    method GetMessageById(phoneNo: string, messageId: string) returns (r: Option<StoredMessage>)
      ensures FirstKeyed(docs, PhoneKey, phoneNo).None? ==> r.None?
      ensures FirstKeyed(docs, PhoneKey, phoneNo).Some? ==>
        r == FirstWithId(docs[FirstKeyed(docs, PhoneKey, phoneNo).value].messages, messageId)
    {
      var i := FirstKeyed(docs, PhoneKey, phoneNo);
      if i.None? {
        return None;
      }
      r := FindMessage(docs[i.value].messages, messageId);
    }
  }
}
