/** The Twilio media-stream to Gemini Live bridge (ws-app.py): the caller's
    audio comes in over the websocket, Gemini's audio goes back once the
    stream id is known, and the call's transcript is kept as a list of user
    and bot turns. Audio resampling and mu-law coding are functions handed
    in; the WAV recording and the tool calls are not modelled. */
module WsApp {
  import opened Text
  import Audio

  type byte = Audio.byte

  // ---- The system instruction ------------------------------------------------------

  const ADDITIONAL_DATA: string := "Additional Data:\n"

  /** The fetched instruction data: a 200 reply adds its body, under an
      "Additional Data:" heading, after the instruction held so far; any
      other status is an error (None). */
  function WithAdditionalData(instruction: string, status: int, body: string): (r: Option<string>)
    ensures r.Some? <==> status == 200
    ensures r.Some? ==> (StartsWith(r.value, instruction) && r.value[|instruction|..] == ADDITIONAL_DATA + body)
  {
    if status == 200 then Some(instruction + ADDITIONAL_DATA + body) else None
  }

  // ---- The Twilio side ----------------------------------------------------------

  /** A websocket message from Twilio, as its "event" field reads; a message
      that is not JSON, or lacks the field the event needs, is `Malformed`. */
  datatype TwilioMessage = Start(streamSid: string) | Media(payload: seq<byte>) | Stop | Other | Malformed

  /** What the stream generator has done after a run of messages: the stream
      id it holds, the PCM chunks it yielded, and whether it has ended. */
  datatype StreamState = StreamState(streamSid: Option<string>, yielded: seq<seq<byte>>, ended: bool)

  /** One message: "start" records the stream id, "media" yields the decoded
      audio, "stop" and any error end the generator, others are skipped. */
  function StreamStep(s: StreamState, m: TwilioMessage, decode: seq<byte> -> seq<byte>): StreamState
  {
    if s.ended then s
    else match m
      case Start(sid) => s.(streamSid := Some(sid))
      case Media(p) => s.(yielded := s.yielded + [decode(p)])
      case Stop => s.(ended := true)
      case Other => s
      case Malformed => s.(ended := true)
  }

  function StreamRun(s: StreamState, ms: seq<TwilioMessage>, decode: seq<byte> -> seq<byte>): StreamState
    decreases |ms|
  {
    if |ms| == 0 then s else StreamRun(StreamStep(s, ms[0], decode), ms[1..], decode)
  }

  predicate Ends(m: TwilioMessage)
  {
    m.Stop? || m.Malformed?
  }

  /** The media payloads of a run of messages, in order. */
  function Medias(ms: seq<TwilioMessage>): seq<seq<byte>>
    decreases |ms|
  {
    if |ms| == 0 then [] else (if ms[0].Media? then [ms[0].payload] else []) + Medias(ms[1..])
  }

  function MapDecode(ps: seq<seq<byte>>, decode: seq<byte> -> seq<byte>): (r: seq<seq<byte>>)
    ensures |r| == |ps| && forall i :: 0 <= i < |ps| ==> r[i] == decode(ps[i])
  {
    seq(|ps|, i requires 0 <= i < |ps| => decode(ps[i]))
  }

  /** Before the stream ends, every media payload is yielded, decoded and in
      order, and nothing else is. */
  lemma {:induction false} StreamYieldsMedia(s: StreamState, ms: seq<TwilioMessage>, decode: seq<byte> -> seq<byte>)
    requires !s.ended && forall i :: 0 <= i < |ms| ==> !Ends(ms[i])
    ensures StreamRun(s, ms, decode).yielded == s.yielded + MapDecode(Medias(ms), decode)
    ensures !StreamRun(s, ms, decode).ended
    decreases |ms|
  {
    if |ms| > 0 {
      var tail := ms[1..];
      var s1 := StreamStep(s, ms[0], decode);
      var head := if ms[0].Media? then [ms[0].payload] else [];
      assert !Ends(ms[0]);
      assert s1.yielded == s.yielded + MapDecode(head, decode) && !s1.ended;
      forall i | 0 <= i < |tail| ensures !Ends(tail[i]) {
        assert tail[i] == ms[i + 1];
      }
      StreamYieldsMedia(s1, tail, decode);
      assert StreamRun(s, ms, decode) == StreamRun(s1, tail, decode);
      assert Medias(ms) == head + Medias(tail);
      MapDecodeAppend(head, Medias(tail), decode);
      var a, b, c := s.yielded, MapDecode(head, decode), MapDecode(Medias(tail), decode);
      assert (a + b) + c == a + (b + c);
    }
  }

  lemma MapDecodeAppend(a: seq<seq<byte>>, b: seq<seq<byte>>, decode: seq<byte> -> seq<byte>)
    ensures MapDecode(a + b, decode) == MapDecode(a, decode) + MapDecode(b, decode)
  {
    var l, r := MapDecode(a + b, decode), MapDecode(a, decode) + MapDecode(b, decode);
    forall i | 0 <= i < |a + b| ensures l[i] == r[i] {
      if i < |a| {
        assert (a + b)[i] == a[i];
      } else {
        assert (a + b)[i] == b[i - |a|];
      }
    }
  }

  /** Once the stream has ended, later messages change nothing. */
  lemma {:induction false} EndedStreamIgnores(s: StreamState, ms: seq<TwilioMessage>, decode: seq<byte> -> seq<byte>)
    requires s.ended
    ensures StreamRun(s, ms, decode) == s
    decreases |ms|
  {
    if |ms| > 0 {
      EndedStreamIgnores(s, ms[1..], decode);
    }
  }

  /** Messages after a "stop" are never read. */
  lemma StopCutsStream(a: seq<TwilioMessage>, b: seq<TwilioMessage>, decode: seq<byte> -> seq<byte>)
    requires forall i :: 0 <= i < |a| ==> !Ends(a[i])
    ensures StreamRun(StreamState(None, [], false), a + [Stop] + b, decode)
            == StreamRun(StreamState(None, [], false), a + [Stop], decode)
  {
    StreamRunAppend(StreamState(None, [], false), a + [Stop], b, decode);
    var s := StreamRun(StreamState(None, [], false), a + [Stop], decode);
    StreamRunAppend(StreamState(None, [], false), a, [Stop], decode);
    StreamYieldsMedia(StreamState(None, [], false), a, decode);
    assert s.ended;
    EndedStreamIgnores(s, b, decode);
  }

  lemma {:induction false} StreamRunAppend(s: StreamState, a: seq<TwilioMessage>, b: seq<TwilioMessage>,
                                           decode: seq<byte> -> seq<byte>)
    ensures StreamRun(s, a + b, decode) == StreamRun(StreamRun(s, a, decode), b, decode)
    decreases |a|
  {
    if |a| > 0 {
      assert (a + b)[0] == a[0] && (a + b)[1..] == a[1..] + b;
      StreamRunAppend(StreamStep(s, a[0], decode), a[1..], b, decode);
    } else {
      assert a + b == b;
    }
  }

  // ---- The Gemini side ------------------------------------------------------------

  datatype Speaker = UserSpeaker | BotSpeaker

  /** A `call_transcriptions` entry: {"name": "user" or "bot", "transcription": text}. */
  datatype Entry = Entry(name: Speaker, transcription: string)

  /** A message's `server_content`: the input and output transcriptions
      when present, and whether it carries a model turn. */
  datatype ServerContent = ServerContent(inputTranscription: Option<string>, outputTranscription: Option<string>,
                                         modelTurn: bool)

  /** A Gemini Live message: its audio `data` when present, and its
      `server_content` (absent on tool-call messages). */
  datatype ServerMessage = ServerMessage(data: Option<seq<byte>>, serverContent: Option<ServerContent>)

  /** A message together with the stream id the bridge holds when it
      arrives (the Twilio side sets it concurrently). */
  datatype Arrival = Arrival(message: ServerMessage, streamSid: Option<string>)

  /** An outgoing Twilio "media" event. */
  datatype MediaFrame = MediaFrame(streamSid: string, payload: seq<byte>)

  /** The audio gate: a chunk goes back to Twilio only once a non-empty
      stream id is held. */
  function Gate(sid: Option<string>, audio: Option<seq<byte>>, encode: seq<byte> -> seq<byte>): (r: seq<MediaFrame>)
    ensures |r| <= 1
    ensures |r| == 1 <==> audio.Some? && |audio.value| > 0 && sid.Some? && sid.value != ""
    ensures |r| == 1 ==> r[0] == MediaFrame(sid.value, encode(audio.value))
  {
    if audio.Some? && |audio.value| > 0 && sid.Some? && sid.value != "" then
      [MediaFrame(sid.value, encode(audio.value))]
    else []
  }

  /** The transcript and the bot's pending words. */
  datatype Transcript = Transcript(log: seq<Entry>, buffer: string)

  /** `if bot_buffer.strip(): append it stripped; reset` — a blank buffer is
      left as it is. */
  function Flush(t: Transcript): (r: Transcript)
    ensures IsBlank(t.buffer) ==> r == t
    ensures !IsBlank(t.buffer) ==> r == Transcript(t.log + [Entry(BotSpeaker, Strip(t.buffer))], "")
  {
    StripEmptyIffBlank(t.buffer);
    if Strip(t.buffer) != "" then Transcript(t.log + [Entry(BotSpeaker, Strip(t.buffer))], "") else t
  }

  /** The transcription handling of one server content: the user's words go
      in first, then any bot words started before them; a bot chunk is
      added, stripped, after a space; a model turn completes the bot's
      message. */
  function ContentStep(t: Transcript, c: ServerContent): Transcript
  {
    var t1 := if c.inputTranscription.Some? then
                Flush(Transcript(t.log + [Entry(UserSpeaker, c.inputTranscription.value)], t.buffer))
              else t;
    var t2 := if c.outputTranscription.Some? then t1.(buffer := t1.buffer + " " + Strip(c.outputTranscription.value))
              else t1;
    if c.modelTurn then Flush(t2) else t2
  }

  /** What the session loop has produced: the transcript, the frames sent,
      and whether the loop has stopped. */
  datatype Session = Session(transcript: Transcript, sent: seq<MediaFrame>, stopped: bool)

  /** One message: audio through the gate, then the transcription; a message
      without server content raises, which ends the loop. */
  function SessionStep(s: Session, a: Arrival, encode: seq<byte> -> seq<byte>): Session
  {
    if s.stopped then s
    else
      var sent := s.sent + Gate(a.streamSid, a.message.data, encode);
      if a.message.serverContent.None? then Session(s.transcript, sent, true)
      else Session(ContentStep(s.transcript, a.message.serverContent.value), sent, false)
  }

  function SessionRun(s: Session, as_: seq<Arrival>, encode: seq<byte> -> seq<byte>): Session
    decreases |as_|
  {
    if |as_| == 0 then s else SessionRun(SessionStep(s, as_[0], encode), as_[1..], encode)
  }

  /** The bot entries are stripped and never blank. */
  predicate CleanLog(log: seq<Entry>)
  {
    forall i :: 0 <= i < |log| && log[i].name == BotSpeaker ==>
      Strip(log[i].transcription) == log[i].transcription && !IsBlank(log[i].transcription)
  }

  lemma FlushKeepsClean(t: Transcript)
    requires CleanLog(t.log)
    ensures CleanLog(Flush(t).log)
  {
    if !IsBlank(t.buffer) {
      var e := Entry(BotSpeaker, Strip(t.buffer));
      assert Flush(t).log == t.log + [e];
      StripIdempotent(t.buffer);
      StripEmptyIffBlank(t.buffer);
      StripEmptyIffBlank(Strip(t.buffer));
      assert Strip(e.transcription) == e.transcription && !IsBlank(e.transcription);
      forall i | 0 <= i < |t.log + [e]| && (t.log + [e])[i].name == BotSpeaker
        ensures Strip((t.log + [e])[i].transcription) == (t.log + [e])[i].transcription
             && !IsBlank((t.log + [e])[i].transcription)
      {
        if i < |t.log| {
          assert (t.log + [e])[i] == t.log[i];
        }
      }
    }
  }

  lemma ContentStepKeepsClean(t: Transcript, c: ServerContent)
    requires CleanLog(t.log)
    ensures CleanLog(ContentStep(t, c).log)
  {
    if c.inputTranscription.Some? {
      FlushKeepsClean(Transcript(t.log + [Entry(UserSpeaker, c.inputTranscription.value)], t.buffer));
    }
    var t1 := if c.inputTranscription.Some? then
                Flush(Transcript(t.log + [Entry(UserSpeaker, c.inputTranscription.value)], t.buffer))
              else t;
    var t2 := if c.outputTranscription.Some? then t1.(buffer := t1.buffer + " " + Strip(c.outputTranscription.value))
              else t1;
    FlushKeepsClean(t2);
  }

  lemma {:induction false} SessionRunKeepsClean(s: Session, as_: seq<Arrival>, encode: seq<byte> -> seq<byte>)
    requires CleanLog(s.transcript.log)
    ensures CleanLog(SessionRun(s, as_, encode).transcript.log)
    decreases |as_|
  {
    if |as_| > 0 {
      if !s.stopped && as_[0].message.serverContent.Some? {
        ContentStepKeepsClean(s.transcript, as_[0].message.serverContent.value);
      }
      SessionRunKeepsClean(SessionStep(s, as_[0], encode), as_[1..], encode);
    }
  }

  /** The user's words, in order. */
  function UserWords(log: seq<Entry>): seq<string>
    decreases |log|
  {
    if |log| == 0 then []
    else UserWords(log[..|log| - 1]) + (if log[|log| - 1].name == UserSpeaker then [log[|log| - 1].transcription] else [])
  }

  lemma {:induction false} UserWordsAppend(a: seq<Entry>, b: seq<Entry>)
    ensures UserWords(a + b) == UserWords(a) + UserWords(b)
    decreases |b|
  {
    if |b| > 0 {
      assert (a + b)[..|a + b| - 1] == a + b[..|b| - 1];
      UserWordsAppend(a, b[..|b| - 1]);
    } else {
      assert a + b == a;
    }
  }

  lemma UserWordsPush(log: seq<Entry>, e: Entry)
    ensures UserWords(log + [e]) == UserWords(log) + (if e.name == UserSpeaker then [e.transcription] else [])
  {
    assert (log + [e])[..|log|] == log;
  }

  /** Flushing the bot's words never adds or drops a user turn. */
  lemma FlushKeepsUserWords(t: Transcript)
    ensures UserWords(Flush(t).log) == UserWords(t.log)
  {
    UserWordsPush(t.log, Entry(BotSpeaker, Strip(t.buffer)));
  }

  /** One content step adds exactly its input transcription to the user's
      words. */
  lemma ContentStepUserWords(t: Transcript, c: ServerContent)
    ensures UserWords(ContentStep(t, c).log)
            == UserWords(t.log) + (if c.inputTranscription.Some? then [c.inputTranscription.value] else [])
  {
    var t1 := if c.inputTranscription.Some? then
                Flush(Transcript(t.log + [Entry(UserSpeaker, c.inputTranscription.value)], t.buffer))
              else t;
    if c.inputTranscription.Some? {
      UserWordsPush(t.log, Entry(UserSpeaker, c.inputTranscription.value));
      FlushKeepsUserWords(Transcript(t.log + [Entry(UserSpeaker, c.inputTranscription.value)], t.buffer));
    }
    var t2 := if c.outputTranscription.Some? then t1.(buffer := t1.buffer + " " + Strip(c.outputTranscription.value))
              else t1;
    FlushKeepsUserWords(t2);
  }

  /** The input transcriptions of the messages the loop handles: those
      before the first message without server content. */
  function HandledInputs(as_: seq<Arrival>): seq<string>
    decreases |as_|
  {
    if |as_| == 0 || as_[0].message.serverContent.None? then []
    else
      var c := as_[0].message.serverContent.value;
      (if c.inputTranscription.Some? then [c.inputTranscription.value] else []) + HandledInputs(as_[1..])
  }

  /** Over a whole session, the user turns logged are exactly the input
      transcriptions the loop handled, in order; the final flush adds none. */
  lemma {:induction false} SessionUserWords(s: Session, as_: seq<Arrival>, encode: seq<byte> -> seq<byte>)
    requires !s.stopped
    ensures UserWords(Flush(SessionRun(s, as_, encode).transcript).log) == UserWords(s.transcript.log) + HandledInputs(as_)
    decreases |as_|
  {
    if |as_| == 0 {
      FlushKeepsUserWords(s.transcript);
    } else if as_[0].message.serverContent.None? {
      var s1 := SessionStep(s, as_[0], encode);
      assert s1.transcript == s.transcript && s1.stopped;
      StoppedSessionIgnores(s1, as_[1..], encode);
      FlushKeepsUserWords(s.transcript);
    } else {
      var c := as_[0].message.serverContent.value;
      var s1 := SessionStep(s, as_[0], encode);
      assert s1.transcript == ContentStep(s.transcript, c) && !s1.stopped;
      assert SessionRun(s, as_, encode) == SessionRun(s1, as_[1..], encode);
      var head := if c.inputTranscription.Some? then [c.inputTranscription.value] else [];
      assert HandledInputs(as_) == head + HandledInputs(as_[1..]);
      ContentStepUserWords(s.transcript, c);
      SessionUserWords(s1, as_[1..], encode);
    }
  }

  /** When the caller speaks while the bot has words pending, the log shows
      the caller's turn first and the bot's interrupted words after it. */
  lemma InterruptedBotLoggedAfterUser(t: Transcript, c: ServerContent)
    requires c.inputTranscription.Some? && !IsBlank(t.buffer)
    requires c.outputTranscription.None? && !c.modelTurn
    ensures ContentStep(t, c).log
            == t.log + [Entry(UserSpeaker, c.inputTranscription.value), Entry(BotSpeaker, Strip(t.buffer))]
  {
  }

  /** `twilio_audio_stream`'s state and `call_transcriptions` live on the
      bridge; the transcript list is a module global that no call clears. */
  class Bridge {
    var systemInstruction: string
    var streamSid: Option<string>
    var callTranscriptions: seq<Entry>
    var sent: seq<MediaFrame>

    constructor(instruction: string, transcriptions: seq<Entry>)
      ensures systemInstruction == instruction
      ensures streamSid == None && callTranscriptions == transcriptions && sent == []
    {
      systemInstruction := instruction;
      streamSid := None;
      callTranscriptions := transcriptions;
      sent := [];
    }

    /** `get_system_instruction`, given the endpoint's reply: a 200 extends
        the instruction, anything else raises (`ok` false) and leaves it. */
    method GetSystemInstruction(status: int, body: string) returns (ok: bool)
      modifies this
      ensures ok <==> status == 200
      ensures var r := WithAdditionalData(old(systemInstruction), status, body);
        systemInstruction == (if r.Some? then r.value else old(systemInstruction))
      ensures streamSid == old(streamSid) && callTranscriptions == old(callTranscriptions) && sent == old(sent)
    {
      if status == 200 {
        systemInstruction := systemInstruction + ADDITIONAL_DATA + body;
        return true;
      }
      return false;
    }

    /** `twilio_audio_stream`: read messages until "stop" or an error. */
    method TwilioAudioStream(ms: seq<TwilioMessage>, decode: seq<byte> -> seq<byte>) returns (yielded: seq<seq<byte>>)
      modifies this
      ensures var r := StreamRun(StreamState(old(streamSid), [], false), ms, decode);
        streamSid == r.streamSid && yielded == r.yielded
      ensures callTranscriptions == old(callTranscriptions) && sent == old(sent)
      ensures systemInstruction == old(systemInstruction)
    {
      yielded := [];
      var i := 0;
      while i < |ms|
        invariant 0 <= i <= |ms|
        invariant StreamRun(StreamState(old(streamSid), [], false), ms, decode)
                  == StreamRun(StreamState(streamSid, yielded, false), ms[i..], decode)
        invariant callTranscriptions == old(callTranscriptions) && sent == old(sent)
        invariant systemInstruction == old(systemInstruction)
      {
        assert ms[i..][0] == ms[i] && ms[i..][1..] == ms[i + 1..];
        match ms[i] {
          case Start(sid) =>
            streamSid := Some(sid);
          case Media(p) =>
            yielded := yielded + [decode(p)];
          case Stop =>
            EndedStreamIgnores(StreamState(streamSid, yielded, true), ms[i + 1..], decode);
            return;
          case Other =>
          case Malformed =>
            EndedStreamIgnores(StreamState(streamSid, yielded, true), ms[i + 1..], decode);
            return;
        }
        i := i + 1;
      }
    }

    /** `gemini_session`'s loop and its `finally`: the bot's last words are
        flushed when the session ends, however it ends. */
    method GeminiSession(as_: seq<Arrival>, encode: seq<byte> -> seq<byte>)
      modifies this
      ensures var r := SessionRun(Session(Transcript(old(callTranscriptions), ""), [], false), as_, encode);
        callTranscriptions == Flush(r.transcript).log && sent == old(sent) + r.sent
      ensures CleanLog(old(callTranscriptions)) ==> CleanLog(callTranscriptions)
      ensures streamSid == old(streamSid) && systemInstruction == old(systemInstruction)
    {
      var buffer := "";
      ghost var s0 := Session(Transcript(old(callTranscriptions), ""), [], false);
      ghost var frames: seq<MediaFrame> := [];
      var i := 0;
      var stopped := false;
      while i < |as_| && !stopped
        invariant 0 <= i <= |as_|
        invariant sent == old(sent) + frames
        invariant SessionRun(s0, as_, encode)
                  == SessionRun(Session(Transcript(callTranscriptions, buffer), frames, stopped), as_[i..], encode)
        invariant CleanLog(old(callTranscriptions)) ==> CleanLog(callTranscriptions)
        invariant streamSid == old(streamSid) && systemInstruction == old(systemInstruction)
      {
        assert as_[i..][0] == as_[i] && as_[i..][1..] == as_[i + 1..];
        var a := as_[i];
        var out := Gate(a.streamSid, a.message.data, encode);
        sent := sent + out;
        frames := frames + out;
        if a.message.serverContent.None? {
          stopped := true;
        } else {
          if CleanLog(callTranscriptions) {
            ContentStepKeepsClean(Transcript(callTranscriptions, buffer), a.message.serverContent.value);
          }
          var t := ContentStep(Transcript(callTranscriptions, buffer), a.message.serverContent.value);
          callTranscriptions := t.log;
          buffer := t.buffer;
        }
        i := i + 1;
      }
      if stopped {
        StoppedSessionIgnores(Session(Transcript(callTranscriptions, buffer), frames, true), as_[i..], encode);
      } else {
        assert as_[i..] == [];
      }
      if CleanLog(callTranscriptions) {
        FlushKeepsClean(Transcript(callTranscriptions, buffer));
      }
      callTranscriptions := Flush(Transcript(callTranscriptions, buffer)).log;
    }
  }

  lemma {:induction false} StoppedSessionIgnores(s: Session, as_: seq<Arrival>, encode: seq<byte> -> seq<byte>)
    requires s.stopped
    ensures SessionRun(s, as_, encode) == s
    decreases |as_|
  {
    if |as_| > 0 {
      StoppedSessionIgnores(s, as_[1..], encode);
    }
  }

  /** No audio reaches Twilio before a stream id is known. */
  lemma {:induction false} SilentBeforeStart(s: Session, as_: seq<Arrival>, encode: seq<byte> -> seq<byte>)
    requires forall i :: 0 <= i < |as_| ==> as_[i].streamSid.None?
    ensures SessionRun(s, as_, encode).sent == s.sent
    decreases |as_|
  {
    if |as_| > 0 {
      SilentBeforeStart(SessionStep(s, as_[0], encode), as_[1..], encode);
    }
  }

  /** A tool-call message carries no server content, so reading its
      transcription raises and the loop ends there: later messages are not
      handled. */
  lemma ToolCallEndsSession(s: Session, a: Arrival, rest: seq<Arrival>, encode: seq<byte> -> seq<byte>)
    requires !s.stopped && a.message.serverContent.None?
    ensures SessionRun(s, [a] + rest, encode).stopped
    ensures SessionRun(s, [a] + rest, encode).transcript == s.transcript
  {
    assert ([a] + rest)[0] == a && ([a] + rest)[1..] == rest;
    StoppedSessionIgnores(SessionStep(s, a, encode), rest, encode);
  }
}
