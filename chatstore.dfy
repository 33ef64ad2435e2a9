/** What the Facebook and WhatsApp chat services share: a collection as an
    in-memory table of documents, the message records pushed into a chat,
    and the reads over a chat's message list
    (services/facebook_sevice.py, services/whatsapp_service.py). */
module ChatStore {
  import opened Text
  import Audio

  /** A pushed message record: {id, message, sender, time, type}, with
      `audio_path` when an audio file was saved. */
  datatype StoredMessage = StoredMessage(id: string, message: string, sender: string, time: int,
                                         kind: string, audioPath: Option<string>)

  /** The index of the first document whose key is `k`: the one MongoDB's
      `find_one`, `update_one` and `delete_one` act on. */
  function FirstKeyed<T>(docs: seq<T>, key: T -> string, k: string): (r: Option<nat>)
    ensures r.None? <==> forall i :: 0 <= i < |docs| ==> key(docs[i]) != k
    ensures r.Some? ==> (r.value < |docs| && key(docs[r.value]) == k
                         && forall j :: 0 <= j < r.value ==> key(docs[j]) != k)
    decreases |docs|
  {
    if |docs| == 0 then None
    else if key(docs[0]) == k then Some(0)
    else
      var rest := FirstKeyed(docs[1..], key, k);
      assert forall i :: 1 <= i < |docs| ==> docs[i] == docs[1..][i - 1];
      if rest.Some? then Some(rest.value + 1) else None
  }

  /** An update that keeps every document's key keeps which document the
      next operation finds. */
  lemma SameKeysSameFirst<T>(a: seq<T>, b: seq<T>, key: T -> string, k: string)
    requires |a| == |b| && forall j :: 0 <= j < |a| ==> key(a[j]) == key(b[j])
    ensures FirstKeyed(a, key, k) == FirstKeyed(b, key, k)
  {
    var fa := FirstKeyed(a, key, k);
    var fb := FirstKeyed(b, key, k);
    if fa.Some? {
      assert fb.Some?;
      assert !(fa.value < fb.value) && !(fb.value < fa.value);
    }
  }

  /** The table without the document at `i`. */
  function RemoveAt<T>(docs: seq<T>, i: nat): (r: seq<T>)
    requires i < |docs|
    ensures |r| == |docs| - 1
    ensures forall j :: 0 <= j < i ==> r[j] == docs[j]
    ensures forall j :: i <= j < |r| ==> r[j] == docs[j + 1]
  {
    docs[..i] + docs[i + 1..]
  }

  /** Python's `s[k:]` for any integer `k`: a negative start counts from the
      end, and either kind is clamped to the list. */
  function PySliceFrom<T>(s: seq<T>, k: int): (r: seq<T>)
    ensures var start := if k < 0 then (if |s| + k < 0 then 0 else |s| + k) else (if k > |s| then |s| else k);
      r == s[start..]
  {
    if k < 0 then (if |s| + k < 0 then s else s[|s| + k..])
    else if k > |s| then [] else s[k..]
  }

  /** `messages[-limit:] if len(messages) > limit else messages`. */
  function RecentMessages(msgs: seq<StoredMessage>, limit: int): (r: seq<StoredMessage>)
    ensures |r| <= |msgs| && r == msgs[|msgs| - |r|..]
    ensures limit > 0 ==> |r| == (if limit < |msgs| then limit else |msgs|)
    ensures limit == 0 ==> r == msgs
    ensures limit < 0 ==> |r| == (if |msgs| + limit < 0 then 0 else |msgs| + limit)
  {
    if |msgs| > limit then PySliceFrom(msgs, -limit) else msgs
  }

  /** A just-pushed message is the newest of the recent ones for any
      non-negative limit (a zero limit slices from 0 and keeps them all). */
  lemma PushedIsRecent(msgs: seq<StoredMessage>, m: StoredMessage, limit: int)
    requires limit >= 0
    ensures var r := RecentMessages(msgs + [m], limit); |r| > 0 && r[|r| - 1] == m
  {
  }

  /** The first message with id `id`, as the `for` loop in
      `get_message_by_id` returns it. */
  function FirstWithId(msgs: seq<StoredMessage>, id: string): (r: Option<StoredMessage>)
    ensures r.None? <==> forall i :: 0 <= i < |msgs| ==> msgs[i].id != id
    ensures r.Some? ==> exists i :: (0 <= i < |msgs| && msgs[i] == r.value && msgs[i].id == id
                                     && forall j :: 0 <= j < i ==> msgs[j].id != id)
    decreases |msgs|
  {
    if |msgs| == 0 then None
    else if msgs[0].id == id then Some(msgs[0])
    else
      assert forall i :: 1 <= i < |msgs| ==> msgs[i] == msgs[1..][i - 1];
      FirstWithId(msgs[1..], id)
  }

  /** A message pushed with an id no earlier message has is found by it. */
  lemma FreshIdFound(msgs: seq<StoredMessage>, m: StoredMessage)
    requires forall i :: 0 <= i < |msgs| ==> msgs[i].id != m.id
    ensures FirstWithId(msgs + [m], m.id) == Some(m)
  {
    var all := msgs + [m];
    assert all[|msgs|] == m;
    assert forall j :: 0 <= j < |msgs| ==> all[j] == msgs[j];
  }

  /** The scan of `get_message_by_id` over one chat's messages. */
  method FindMessage(msgs: seq<StoredMessage>, id: string) returns (r: Option<StoredMessage>)
    ensures r == FirstWithId(msgs, id)
  {
    var i := 0;
    while i < |msgs|
      invariant 0 <= i <= |msgs|
      invariant FirstWithId(msgs[i..], id) == FirstWithId(msgs, id)
    {
      assert msgs[i..][0] == msgs[i] && msgs[i..][1..] == msgs[i + 1..];
      if msgs[i].id == id {
        return Some(msgs[i]);
      }
      i := i + 1;
    }
    assert msgs[i..] == [];
    return None;
  }

  /** `type == "audio" and audio_bytes`: the bytes are given and not empty. */
  predicate SavesAudio(kind: string, audio: Option<seq<Audio.byte>>)
  {
    kind == "audio" && audio.Some? && |audio.value| > 0
  }
}
