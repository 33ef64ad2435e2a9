/** The Messenger chat collection (services/facebook_sevice.py): one
    document per sender, each holding that sender's message list. The
    clock and the generated message ids are parameters; the audio file
    written to disk is represented by the path recorded for it. */
module FacebookStore {
  import opened Text
  import opened ChatStore
  import Audio

  const AUDIO_DIR: string := "files/facebook"
  const AUDIO_EXTENSION: string := ".mp3"

  /** A `FacebookUser` document. */
  datatype FbDoc = FbDoc(senderId: string, messages: seq<StoredMessage>, createdAt: int, updatedAt: int,
                         adminEnabled: bool, userInfo: map<string, string>)

  function SenderKey(d: FbDoc): string { d.senderId }

  /** The document `create` inserts: no messages, admin replies off, and
      `user_info or {}`. */
  function NewDoc(senderId: string, userInfo: Option<map<string, string>>, now: int): (d: FbDoc)
    ensures d.senderId == senderId && d.messages == [] && !d.adminEnabled
    ensures d.createdAt == now && d.updatedAt == now
    ensures userInfo.None? ==> d.userInfo == map[]
    ensures userInfo.Some? ==> d.userInfo == userInfo.value
  {
    FbDoc(senderId, [], now, now, false, if userInfo.Some? then userInfo.value else map[])
  }

  /** The record `add_message` pushes; an audio message with bytes gets the
      path of its saved file. */
  function NewMessage(message: string, senderId: string, sender: string, kind: string,
                      audio: Option<seq<Audio.byte>>, messageId: string, now: int): (m: StoredMessage)
    ensures m.id == messageId && m.message == message && m.sender == sender && m.time == now && m.kind == kind
    ensures m.audioPath.Some? <==> SavesAudio(kind, audio)
    ensures m.audioPath.Some? ==> m.audioPath.value == AUDIO_DIR + "/" + senderId + "/" + messageId + AUDIO_EXTENSION
  {
    StoredMessage(messageId, message, sender, now, kind,
                  if SavesAudio(kind, audio) then Some(AUDIO_DIR + "/" + senderId + "/" + messageId + AUDIO_EXTENSION)
                  else None)
  }

  /** The table after `toggle_enabled_admin`: the sender's first document has
      its flag negated. */
  function Toggled(docs: seq<FbDoc>, senderId: string): (r: seq<FbDoc>)
    ensures |r| == |docs|
  {
    var i := FirstKeyed(docs, SenderKey, senderId);
    if i.None? then docs else docs[i.value := docs[i.value].(adminEnabled := !docs[i.value].adminEnabled)]
  }

  /** The table after `add_message`'s `$push` and `$set`. */
  function Pushed(docs: seq<FbDoc>, senderId: string, m: StoredMessage, now: int): (r: seq<FbDoc>)
    ensures |r| == |docs|
  {
    var i := FirstKeyed(docs, SenderKey, senderId);
    if i.None? then docs
    else docs[i.value := docs[i.value].(messages := docs[i.value].messages + [m], updatedAt := now)]
  }

  /** The table after `delete_one`. */
  function Deleted(docs: seq<FbDoc>, senderId: string): (r: seq<FbDoc>)
  {
    var i := FirstKeyed(docs, SenderKey, senderId);
    if i.None? then docs else RemoveAt(docs, i.value)
  }

  /** `get_messages` on a table. */
  function MessagesOf(docs: seq<FbDoc>, senderId: string, limit: int): (r: seq<StoredMessage>)
    ensures FirstKeyed(docs, SenderKey, senderId).None? ==> r == []
  {
    var i := FirstKeyed(docs, SenderKey, senderId);
    if i.None? then [] else RecentMessages(docs[i.value].messages, limit)
  }

  /** Toggling twice restores the table. */
  lemma ToggleTwiceRestores(docs: seq<FbDoc>, senderId: string)
    ensures Toggled(Toggled(docs, senderId), senderId) == docs
  {
    var i := FirstKeyed(docs, SenderKey, senderId);
    if i.Some? {
      var t := Toggled(docs, senderId);
      SameKeysSameFirst(t, docs, SenderKey, senderId);
    }
  }

  /** Toggling changes only the sender's flag: every document keeps its
      sender, messages and times, and every other sender's document is as it
      was. */
  lemma ToggleTouchesOnlyTheFlag(docs: seq<FbDoc>, senderId: string, j: nat)
    requires j < |docs|
    ensures var t := Toggled(docs, senderId)[j];
      t.senderId == docs[j].senderId && t.messages == docs[j].messages && t.userInfo == docs[j].userInfo
      && (docs[j].senderId != senderId ==> t == docs[j])
  {
  }

  /** After a message is pushed for a known sender, it is the newest message
      `get_messages` returns for any non-negative limit, and, its id being
      new, `get_message_by_id` finds it. */
  lemma PushedMessageReadBack(docs: seq<FbDoc>, senderId: string, m: StoredMessage, now: int, limit: int)
    requires FirstKeyed(docs, SenderKey, senderId).Some? && limit >= 0
    requires var i := FirstKeyed(docs, SenderKey, senderId).value;
      forall k :: 0 <= k < |docs[i].messages| ==> docs[i].messages[k].id != m.id
    ensures var p := Pushed(docs, senderId, m, now);
      var r := MessagesOf(p, senderId, limit);
      |r| > 0 && r[|r| - 1] == m
      && FirstWithId(p[FirstKeyed(p, SenderKey, senderId).value].messages, m.id) == Some(m)
  {
    var i := FirstKeyed(docs, SenderKey, senderId).value;
    var p := Pushed(docs, senderId, m, now);
    SameKeysSameFirst(p, docs, SenderKey, senderId);
    PushedIsRecent(docs[i].messages, m, limit);
    FreshIdFound(docs[i].messages, m);
  }

  /** A sender with a single document is gone after `delete_chat`: a later
      `add_message` for it finds no chat. */
  lemma DeleteRemovesSoleChat(docs: seq<FbDoc>, senderId: string, i: nat)
    requires i < |docs| && docs[i].senderId == senderId
    requires forall j :: 0 <= j < |docs| && j != i ==> docs[j].senderId != senderId
    ensures FirstKeyed(Deleted(docs, senderId), SenderKey, senderId).None?
    ensures |Deleted(docs, senderId)| == |docs| - 1
  {
    var f := FirstKeyed(docs, SenderKey, senderId);
    assert f == Some(i) by {
      assert f.Some?;
      assert !(f.value < i) && !(i < f.value);
    }
  }

  /** A document created for a sender is found by the next operations. */
  lemma CreatedIsFound(docs: seq<FbDoc>, senderId: string, userInfo: Option<map<string, string>>, now: int)
    ensures FirstKeyed(docs + [NewDoc(senderId, userInfo, now)], SenderKey, senderId).Some?
  {
    var all := docs + [NewDoc(senderId, userInfo, now)];
    assert SenderKey(all[|docs|]) == senderId;
  }

  class FacebookService {
    var docs: seq<FbDoc>

    constructor()
      ensures docs == []
    {
      docs := [];
    }

    /** `create`: inserts and returns the new document. */
    method Create(senderId: string, userInfo: Option<map<string, string>>, now: int) returns (doc: FbDoc)
      modifies this
      ensures doc == NewDoc(senderId, userInfo, now)
      ensures docs == old(docs) + [doc]
    {
      doc := NewDoc(senderId, userInfo, now);
      docs := docs + [doc];
    }

    /** `toggle_enabled_admin`; `matched` is the update's matched count. */
    method ToggleEnabledAdmin(senderId: string) returns (matched: bool)
      modifies this
      ensures matched <==> FirstKeyed(old(docs), SenderKey, senderId).Some?
      ensures docs == Toggled(old(docs), senderId)
    {
      var i := FirstKeyed(docs, SenderKey, senderId);
      if i.Some? {
        docs := docs[i.value := docs[i.value].(adminEnabled := !docs[i.value].adminEnabled)];
      }
      return i.Some?;
    }

    /** `add_message`: None and no change for an unknown sender; otherwise the
        record is pushed and its id returned. */
    method AddMessage(message: string, senderId: string, sender: string, kind: string,
                      audio: Option<seq<Audio.byte>>, messageId: string, now: int) returns (r: Option<string>)
      modifies this
      ensures FirstKeyed(old(docs), SenderKey, senderId).None? ==> r.None? && docs == old(docs)
      ensures FirstKeyed(old(docs), SenderKey, senderId).Some? ==>
        (r == Some(messageId)
         && docs == Pushed(old(docs), senderId, NewMessage(message, senderId, sender, kind, audio, messageId, now), now))
    {
      var i := FirstKeyed(docs, SenderKey, senderId);
      if i.None? {
        return None;
      }
      var m := NewMessage(message, senderId, sender, kind, audio, messageId, now);
      docs := docs[i.value := docs[i.value].(messages := docs[i.value].messages + [m], updatedAt := now)];
      return Some(messageId);
    }

    /** `get_messages`. */
    function GetMessages(senderId: string, limit: int): (r: seq<StoredMessage>)
      reads this
      ensures FirstKeyed(docs, SenderKey, senderId).None? ==> r == []
      ensures FirstKeyed(docs, SenderKey, senderId).Some? ==>
        r == RecentMessages(docs[FirstKeyed(docs, SenderKey, senderId).value].messages, limit)
    {
      MessagesOf(docs, senderId, limit)
    }

    /** `get_message_by_id`. */
    method GetMessageById(senderId: string, messageId: string) returns (r: Option<StoredMessage>)
      ensures FirstKeyed(docs, SenderKey, senderId).None? ==> r.None?
      ensures FirstKeyed(docs, SenderKey, senderId).Some? ==>
        r == FirstWithId(docs[FirstKeyed(docs, SenderKey, senderId).value].messages, messageId)
    {
      var i := FirstKeyed(docs, SenderKey, senderId);
      if i.None? {
        return None;
      }
      r := FindMessage(docs[i.value].messages, messageId);
    }

    /** `delete_chat`: true exactly when a document was removed. */
    method DeleteChat(senderId: string) returns (deleted: bool)
      modifies this
      ensures deleted <==> FirstKeyed(old(docs), SenderKey, senderId).Some?
      ensures docs == Deleted(old(docs), senderId)
    {
      var i := FirstKeyed(docs, SenderKey, senderId);
      if i.Some? {
        docs := RemoveAt(docs, i.value);
      }
      return i.Some?;
    }
  }
}
