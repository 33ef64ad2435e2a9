/** The phone-call collection (services/call_service.py): one record per
    call with its status, times, recording name, and transcript. The clock
    is a parameter. */
module CallStore {
  import opened Text
  import opened ChatStore

  datatype CallStatus = Ongoing | Ended | InProgress

  /** A `CallTranscription`. */
  datatype CallEntry = CallEntry(speaker: string, transcription: string)

  /** `userdata`: the request's `custom_params`, or the default
      {"name": "", "qid": 0} when it has none. */
  datatype UserData = CustomParams(params: map<string, string>) | DefaultUserData

  datatype Call = Call(callId: string, status: CallStatus, startedAt: int, endedAt: Option<int>,
                       audio: string, transcription: seq<CallEntry>, userdata: UserData)

  /** The keys `create_call` reads from its `data` dict, when present. */
  datatype CallData = CallData(startedAt: Option<int>, fileName: Option<string>, customParams: Option<map<string, string>>)

  function CallKey(c: Call): string { c.callId }

  /** The record `create_call` inserts. */
  function NewCall(callId: string, data: CallData, now: int): (c: Call)
    ensures c.callId == callId && c.status == Ongoing && c.endedAt.None? && c.transcription == []
    ensures c.startedAt == (if data.startedAt.Some? then data.startedAt.value else now)
    ensures data.fileName.Some? ==> c.audio == data.fileName.value
    ensures data.fileName.None? ==> c.audio == "call_" + callId + ".wav"
    ensures c.userdata == (if data.customParams.Some? then CustomParams(data.customParams.value) else DefaultUserData)
  {
    Call(callId, Ongoing,
         if data.startedAt.Some? then data.startedAt.value else now,
         None,
         if data.fileName.Some? then data.fileName.value else "call_" + callId + ".wav",
         [],
         if data.customParams.Some? then CustomParams(data.customParams.value) else DefaultUserData)
  }

  /** The entries `add_chunk` builds from its list of dicts: `entry["speaker"]`
      and `entry["transcription"]`, in order; a missing key raises (None). */
  function ChunkEntries(data: seq<map<string, string>>): (r: Option<seq<CallEntry>>)
    ensures r.Some? <==> forall i :: 0 <= i < |data| ==> "speaker" in data[i] && "transcription" in data[i]
    ensures r.Some? ==> |r.value| == |data| && forall i :: 0 <= i < |data| ==>
      r.value[i] == CallEntry(data[i]["speaker"], data[i]["transcription"])
    decreases |data|
  {
    if |data| == 0 then Some([])
    else
      var last := data[|data| - 1];
      var init := ChunkEntries(data[..|data| - 1]);
      assert forall i :: 0 <= i < |data| - 1 ==> data[..|data| - 1][i] == data[i];
      if init.Some? && "speaker" in last && "transcription" in last then
        Some(init.value + [CallEntry(last["speaker"], last["transcription"])])
      else None
  }

  /** The table after `$push` with `$each`: the entries go on the end of the
      first matching call's transcript. */
  function Appended(calls: seq<Call>, callId: string, entries: seq<CallEntry>): (r: seq<Call>)
    ensures |r| == |calls|
  {
    var i := FirstKeyed(calls, CallKey, callId);
    if i.None? then calls else calls[i.value := calls[i.value].(transcription := calls[i.value].transcription + entries)]
  }

  /** The table after `end_call`. */
  function EndedAt(calls: seq<Call>, callId: string, now: int): (r: seq<Call>)
    ensures |r| == |calls|
  {
    var i := FirstKeyed(calls, CallKey, callId);
    if i.None? then calls else calls[i.value := calls[i.value].(status := Ended, endedAt := Some(now))]
  }

  /** `end_call` sets the status and the end time and nothing else. */
  lemma EndTouchesOnlyStatusAndTime(calls: seq<Call>, callId: string, now: int, j: nat)
    requires j < |calls|
    ensures var c := EndedAt(calls, callId, now)[j];
      c.callId == calls[j].callId && c.startedAt == calls[j].startedAt && c.audio == calls[j].audio
      && c.transcription == calls[j].transcription && c.userdata == calls[j].userdata
      && (c != calls[j] ==> c.status == Ended && c.endedAt == Some(now) && calls[j].callId == callId)
  {
  }

  /** Chunks added one after another make one transcript, in order. */
  lemma ChunksAccumulate(calls: seq<Call>, callId: string, a: seq<CallEntry>, b: seq<CallEntry>)
    ensures Appended(Appended(calls, callId, a), callId, b) == Appended(calls, callId, a + b)
  {
    var i := FirstKeyed(calls, CallKey, callId);
    if i.Some? {
      var once := Appended(calls, callId, a);
      SameKeysSameFirst(once, calls, CallKey, callId);
      assert calls[i.value].transcription + a + b == calls[i.value].transcription + (a + b);
    }
  }

  /** `filter_type`: the three statuses filter, anything else lists all. */
  function StatusFilter(filterType: string): (r: Option<CallStatus>)
    ensures r == Some(Ongoing) <==> filterType == "ongoing"
    ensures r == Some(Ended) <==> filterType == "ended"
    ensures r == Some(InProgress) <==> filterType == "in_progress"
  {
    if filterType == "ongoing" then Some(Ongoing)
    else if filterType == "ended" then Some(Ended)
    else if filterType == "in_progress" then Some(InProgress)
    else None
  }

  predicate Selected(c: Call, f: Option<CallStatus>)
  {
    f.None? || c.status == f.value
  }

  /** The calls the query matches, in table order. */
  function Matching(calls: seq<Call>, f: Option<CallStatus>): (r: seq<Call>)
    ensures |r| <= |calls|
    ensures forall i :: 0 <= i < |r| ==> Selected(r[i], f)
    ensures multiset(r) <= multiset(calls)
    decreases |calls|
  {
    if |calls| == 0 then []
    else
      var rest := Matching(calls[..|calls| - 1], f);
      assert calls == calls[..|calls| - 1] + [calls[|calls| - 1]];
      if Selected(calls[|calls| - 1], f) then rest + [calls[|calls| - 1]] else rest
  }

  /** Every call of the table that passes the filter is matched. */
  lemma {:induction false} MatchingComplete(calls: seq<Call>, f: Option<CallStatus>, c: Call)
    requires c in calls && Selected(c, f)
    ensures c in Matching(calls, f)
    decreases |calls|
  {
    var init := calls[..|calls| - 1];
    assert calls == init + [calls[|calls| - 1]];
    if c != calls[|calls| - 1] {
      MatchingComplete(init, f, c);
    }
  }

  predicate NewestFirst(xs: seq<Call>)
  {
    forall i, j :: 0 <= i < j < |xs| ==> xs[i].startedAt >= xs[j].startedAt
  }

  /** `c` placed before the first call that did not start later than it. */
  function InsertByStart(c: Call, xs: seq<Call>): (r: seq<Call>)
    ensures multiset(r) == multiset(xs) + multiset{c}
    decreases |xs|
  {
    if |xs| == 0 || xs[0].startedAt <= c.startedAt then [c] + xs
    else
      assert xs == [xs[0]] + xs[1..];
      [xs[0]] + InsertByStart(c, xs[1..])
  }

  lemma {:induction false} InsertBounded(c: Call, xs: seq<Call>, b: int)
    requires c.startedAt <= b && forall k :: 0 <= k < |xs| ==> xs[k].startedAt <= b
    ensures forall k :: 0 <= k < |InsertByStart(c, xs)| ==> InsertByStart(c, xs)[k].startedAt <= b
    decreases |xs|
  {
    if |xs| > 0 && xs[0].startedAt > c.startedAt {
      InsertBounded(c, xs[1..], b);
    }
  }

  lemma {:induction false} InsertKeepsNewestFirst(c: Call, xs: seq<Call>)
    requires NewestFirst(xs)
    ensures NewestFirst(InsertByStart(c, xs))
    decreases |xs|
  {
    if |xs| > 0 && xs[0].startedAt > c.startedAt {
      var tail := xs[1..];
      assert NewestFirst(tail) by {
        forall i, j | 0 <= i < j < |tail| ensures tail[i].startedAt >= tail[j].startedAt {
          assert tail[i] == xs[i + 1] && tail[j] == xs[j + 1];
        }
      }
      var rest := InsertByStart(c, tail);
      InsertKeepsNewestFirst(c, tail);
      InsertBounded(c, tail, xs[0].startedAt);
      var r := [xs[0]] + rest;
      assert InsertByStart(c, xs) == r;
      forall i, j | 0 <= i < j < |r| ensures r[i].startedAt >= r[j].startedAt {
        assert r[j] == rest[j - 1];
        if i > 0 {
          assert r[i] == rest[i - 1];
        }
      }
    } else {
      var r := [c] + xs;
      assert InsertByStart(c, xs) == r;
      forall i, j | 0 <= i < j < |r| ensures r[i].startedAt >= r[j].startedAt {
        assert r[j] == xs[j - 1];
        if i > 0 {
          assert r[i] == xs[i - 1];
        } else if j > 1 {
          assert xs[0].startedAt >= xs[j - 1].startedAt;
        }
      }
    }
  }

  /** `.sort("started_at", -1)`: the newest call first; calls that started
      together are kept in table order, one of the orders MongoDB may give. */
  function SortByStart(xs: seq<Call>): (r: seq<Call>)
    ensures NewestFirst(r)
    ensures multiset(r) == multiset(xs)
    decreases |xs|
  {
    if |xs| == 0 then []
    else
      assert xs == [xs[0]] + xs[1..];
      InsertKeepsNewestFirst(xs[0], SortByStart(xs[1..]));
      InsertByStart(xs[0], SortByStart(xs[1..]))
  }

  /** `.skip(skip).limit(limit)`: a zero limit means no limit and a negative
      one counts as its absolute value. */
  function Page(xs: seq<Call>, skip: nat, limit: int): (r: seq<Call>)
    ensures |r| == (var left := if skip >= |xs| then 0 else |xs| - skip;
                    var n := if limit < 0 then -limit else limit;
                    if n == 0 || left <= n then left else n)
    ensures forall i :: 0 <= i < |r| ==> skip + i < |xs| && r[i] == xs[skip + i]
  {
    var rest := if skip >= |xs| then [] else xs[skip..];
    var n := if limit < 0 then -limit else limit;
    if n == 0 || n >= |rest| then rest else rest[..n]
  }

  /** A list-view record: the projection without the transcript and
      userdata, `started_at` renamed `call_time`. */
  datatype ListedCall = ListedCall(callId: string, status: CallStatus, callTime: int, endedAt: Option<int>, audio: string)

  function Listing(c: Call): ListedCall
  {
    ListedCall(c.callId, c.status, c.startedAt, c.endedAt, c.audio)
  }

  /** The query's page of calls before the renaming loop. */
  function QueryPage(calls: seq<Call>, filterType: string, skip: nat, limit: int): seq<Call>
  {
    Page(SortByStart(Matching(calls, StatusFilter(filterType))), skip, limit)
  }

  /** A page is a slice of the sorted list: it keeps the order, holds no
      call the list does not, and for a positive limit no more than it; a
      page shorter than the limit runs to the end of the list, and without
      a limit the page is everything after `skip`. */
  lemma PageIsSlice(xs: seq<Call>, skip: nat, limit: int)
    requires NewestFirst(xs)
    ensures var p := Page(xs, skip, limit);
      NewestFirst(p) && multiset(p) <= multiset(xs) && (limit > 0 ==> |p| <= limit)
    ensures var p := Page(xs, skip, limit);
      (limit != 0 && |p| < (if limit < 0 then -limit else limit) ==> skip + |p| >= |xs|)
    ensures limit == 0 && skip <= |xs| ==> Page(xs, skip, limit) == xs[skip..]
  {
    var rest := if skip >= |xs| then [] else xs[skip..];
    if skip < |xs| {
      assert xs == xs[..skip] + xs[skip..];
    }
    var n := if limit < 0 then -limit else limit;
    if !(n == 0 || n >= |rest|) {
      assert rest == rest[..n] + rest[n..];
    }
  }

  lemma SortedSelected(m: seq<Call>, f: Option<CallStatus>)
    requires forall i :: 0 <= i < |m| ==> Selected(m[i], f)
    ensures forall i :: 0 <= i < |SortByStart(m)| ==> Selected(SortByStart(m)[i], f)
  {
    var s := SortByStart(m);
    forall i | 0 <= i < |s|
      ensures Selected(s[i], f)
    {
      assert s[i] in multiset(m);
    }
  }

  /** Every listed call passes the filter, the list runs newest first, and it
      holds at most `limit` calls for a positive limit. */
  lemma ListingProperties(calls: seq<Call>, filterType: string, skip: nat, limit: int)
    ensures var p := QueryPage(calls, filterType, skip, limit);
      (forall i :: 0 <= i < |p| ==> Selected(p[i], StatusFilter(filterType)))
      && NewestFirst(p)
      && (limit > 0 ==> |p| <= limit)
      && multiset(p) <= multiset(calls)
  {
    var m := Matching(calls, StatusFilter(filterType));
    var s := SortByStart(m);
    var p := QueryPage(calls, filterType, skip, limit);
    SortedSelected(m, StatusFilter(filterType));
    PageIsSlice(s, skip, limit);
    forall i | 0 <= i < |p|
      ensures Selected(p[i], StatusFilter(filterType))
    {
      assert p[i] in multiset(s);
    }
  }

  /** With no filter, no skip and no limit, every call is listed. */
  lemma FullListingHasEveryCall(calls: seq<Call>)
    ensures multiset(QueryPage(calls, "all", 0, 0)) == multiset(calls)
  {
    assert StatusFilter("all").None?;
    NoFilterKeepsAll(calls);
  }

  lemma {:induction false} NoFilterKeepsAll(calls: seq<Call>)
    ensures Matching(calls, None) == calls
    decreases |calls|
  {
    if |calls| > 0 {
      NoFilterKeepsAll(calls[..|calls| - 1]);
      assert calls == calls[..|calls| - 1] + [calls[|calls| - 1]];
    }
  }

  /** `count_documents` for one status. */
  function CountStatus(calls: seq<Call>, s: CallStatus): (n: nat)
    ensures n <= |calls|
    decreases |calls|
  {
    if |calls| == 0 then 0
    else CountStatus(calls[..|calls| - 1], s) + (if calls[|calls| - 1].status == s then 1 else 0)
  }

  /** `get_call_counts_by_filter`'s dict. */
  datatype CallCounts = CallCounts(all: nat, ongoing: nat, ended: nat, inProgress: nat)

  function Counts(calls: seq<Call>): CallCounts
  {
    CallCounts(|calls|, CountStatus(calls, Ongoing), CountStatus(calls, Ended), CountStatus(calls, InProgress))
  }

  /** Every call has one of the three statuses, so the filter counts add up
      to the total; and each count is the length of that filter's list. */
  lemma {:induction false} CountsAddUp(calls: seq<Call>)
    ensures Counts(calls).all == Counts(calls).ongoing + Counts(calls).ended + Counts(calls).inProgress
    ensures forall s :: CountStatus(calls, s) == |Matching(calls, Some(s))|
    decreases |calls|
  {
    if |calls| > 0 {
      CountsAddUp(calls[..|calls| - 1]);
    }
  }

  /** The table after `delete_one`. */
  function Removed(calls: seq<Call>, callId: string): seq<Call>
  {
    var i := FirstKeyed(calls, CallKey, callId);
    if i.None? then calls else RemoveAt(calls, i.value)
  }

  class CallService {
    var calls: seq<Call>

    constructor()
      ensures calls == []
    {
      calls := [];
    }

    /** `create_call`. */
    method CreateCall(callId: string, data: CallData, now: int)
      modifies this
      ensures calls == old(calls) + [NewCall(callId, data, now)]
    {
      calls := calls + [NewCall(callId, data, now)];
    }

    /** `add_chunk`: the loop builds the entries, then one `$push $each`;
        a dict without both keys raises first and nothing changes. */
    method AddChunk(callId: string, data: seq<map<string, string>>) returns (ok: bool)
      modifies this
      ensures ok <==> ChunkEntries(data).Some?
      ensures ok ==> calls == Appended(old(calls), callId, ChunkEntries(data).value)
      ensures !ok ==> calls == old(calls)
    {
      var transcriptions: seq<CallEntry> := [];
      var k := 0;
      while k < |data|
        invariant 0 <= k <= |data|
        invariant ChunkEntries(data[..k]) == Some(transcriptions)
      {
        assert data[..k + 1][..k] == data[..k];
        if !("speaker" in data[k] && "transcription" in data[k]) {
          assert !(forall i :: 0 <= i < |data| ==> "speaker" in data[i] && "transcription" in data[i]);
          return false;
        }
        transcriptions := transcriptions + [CallEntry(data[k]["speaker"], data[k]["transcription"])];
        k := k + 1;
      }
      assert data[..k] == data;
      var i := FirstKeyed(calls, CallKey, callId);
      if i.Some? {
        calls := calls[i.value := calls[i.value].(transcription := calls[i.value].transcription + transcriptions)];
      }
      return true;
    }

    /** `end_call`. */
    method EndCall(callId: string, now: int)
      modifies this
      ensures calls == EndedAt(old(calls), callId, now)
    {
      var i := FirstKeyed(calls, CallKey, callId);
      if i.Some? {
        calls := calls[i.value := calls[i.value].(status := Ended, endedAt := Some(now))];
      }
    }

    /** `get_calls_with_limited_data`: the query, then the loop that renames
        each record's start time; a negative skip is refused (None). */
    method GetCallsWithLimitedData(limit: int, skip: int, filterType: string) returns (r: Option<seq<ListedCall>>)
      ensures skip < 0 ==> r.None?
      ensures skip >= 0 ==> r.Some? && var p := QueryPage(calls, filterType, skip, limit);
        |r.value| == |p| && forall i :: 0 <= i < |p| ==> r.value[i] == Listing(p[i])
    {
      if skip < 0 {
        return None;
      }
      var page := QueryPage(calls, filterType, skip, limit);
      var listed: seq<ListedCall> := [];
      var k := 0;
      while k < |page|
        invariant 0 <= k <= |page|
        invariant |listed| == k && forall i :: 0 <= i < k ==> listed[i] == Listing(page[i])
      {
        ghost var prev := listed;
        listed := listed + [Listing(page[k])];
        assert forall i :: 0 <= i < k ==> listed[i] == prev[i];
        k := k + 1;
      }
      return Some(listed);
    }

    /** `get_call_counts_by_filter`. */
    function GetCallCountsByFilter(): (r: CallCounts)
      reads this
      ensures r.all == |calls| && r.all == r.ongoing + r.ended + r.inProgress
      ensures r.ongoing == |Matching(calls, Some(Ongoing))| && r.ended == |Matching(calls, Some(Ended))|
        && r.inProgress == |Matching(calls, Some(InProgress))|
    {
      CountsAddUp(calls);
      Counts(calls)
    }

    /** `get_full_call`: the first call with the id, or None; its record is
        returned whole, transcript included. */
    function GetFullCall(callId: string): (r: Option<Call>)
      reads this
      ensures r.None? <==> forall i :: 0 <= i < |calls| ==> calls[i].callId != callId
      ensures r.Some? ==> r.value.callId == callId && r.value in calls
      ensures r.Some? ==> exists i :: 0 <= i < |calls| && r.value == calls[i]
                                      && forall j :: 0 <= j < i ==> calls[j].callId != callId
    {
      var i := FirstKeyed(calls, CallKey, callId);
      if i.None? then None else Some(calls[i.value])
    }

    /** `delete_call`: true exactly when a record was removed. */
    method DeleteCall(callId: string) returns (deleted: bool)
      modifies this
      ensures deleted <==> exists i :: 0 <= i < |old(calls)| && old(calls)[i].callId == callId
      ensures calls == Removed(old(calls), callId)
    {
      var i := FirstKeyed(calls, CallKey, callId);
      if i.Some? {
        calls := RemoveAt(calls, i.value);
      }
      return i.Some?;
    }
  }
}
