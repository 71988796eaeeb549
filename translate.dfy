/** What `handleGeminiMessage` (server.js:162-216) sends to the client for one
    upstream frame, as a function of the frame and of whether the client
    connection is open (which only matters for messages that go through `sendError`). */
module Translate {
  import opened Wrappers
  import opened Protocol

  const ProcessFailedMessage := "Failed to process AI response"
  const UnknownErrorText := "Unknown error"

  /** What one `sendError(message)` call sends, once the client handle is known to
      exist (server.js:257-264): nothing unless the connection is OPEN. */
  function ErrorIfOpen(message: string, clientOpen: bool): (r: seq<Notification>)
    ensures |r| <= 1
    ensures r != [] <==> clientOpen
    ensures forall k :: 0 <= k < |r| ==> r[k] == Error(message)
  {
    if clientOpen then [Error(message)] else []
  }

  /** A part whose audio is forwarded: inline data tagged exactly `audio/pcm`. */
  predicate IsServerAudio(p: Part)
  {
    p.inlineData.Some? && p.inlineData.value.mimeType == Some(ServerAudioMime)
  }

  /** A forwarded part without `data`: reading `data.length` throws (server.js:180). */
  predicate Throws(p: Part)
  {
    IsServerAudio(p) && p.inlineData.value.data.None?
  }

  /** The outcome of the loop over `model_turn.parts`: the audio notifications
      sent, and whether the loop was cut short by a throwing part. */
  datatype PartsResult = PartsResult(sent: seq<Notification>, threw: bool)

  function AudioParts(parts: seq<Part>): (r: PartsResult)
    ensures forall k :: 0 <= k < |r.sent| ==> r.sent[k].Audio?
    ensures |r.sent| <= |parts|
    decreases |parts|
  {
    if parts == [] then PartsResult([], false)
    else if Throws(parts[0]) then PartsResult([], true)
    else if IsServerAudio(parts[0]) then
      var rest := AudioParts(parts[1..]);
      PartsResult([Audio(parts[0].inlineData.value.data.value)] + rest.sent, rest.threw)
    else AudioParts(parts[1..])
  }

  /** The parts list the loop runs over, when `model_turn.parts` is present. */
  function TurnParts(sc: ServerContent): seq<Part>
  {
    if sc.modelTurn.Some? && sc.modelTurn.value.parts.Some? then sc.modelTurn.value.parts.value else []
  }

  /** `AI Error: ${message.error.message || 'Unknown error'}`. */
  function ApiErrorText(e: ApiError): (r: string)
    ensures |r| >= 10 && r[..10] == "AI Error: "
    ensures e.message.Some? && e.message.value != "" ==> r[10..] == e.message.value
    ensures e.message.None? || e.message.value == "" ==> r[10..] == UnknownErrorText
  {
    "AI Error: " + (if e.message.Some? && e.message.value != "" then e.message.value else UnknownErrorText)
  }

  function Flag(b: bool, n: Notification): seq<Notification>
  {
    if b then [n] else []
  }

  /** What the `server_content` block (server.js:173-204) sends: the audio of the
      parts loop, then, unless the loop threw, the two flags. */
  function ContentNotifications(sc: ServerContent): (r: PartsResult)
    ensures var audio := AudioParts(TurnParts(sc));
            && r.threw == audio.threw
            && |audio.sent| <= |r.sent| <= |audio.sent| + 2 && r.sent[..|audio.sent|] == audio.sent
  {
    var audio := AudioParts(TurnParts(sc));
    if audio.threw then audio
    else PartsResult(audio.sent + Flag(sc.turnComplete, TurnComplete) + Flag(sc.interrupted, Interrupted), false)
  }

  /** The two flags of the content block are sent exactly when set and the parts
      loop did not throw. */
  lemma ContentFlagsSent(sc: ServerContent)
    ensures var r := ContentNotifications(sc);
            && (TurnComplete in r.sent <==> sc.turnComplete && !r.threw)
            && (Interrupted in r.sent <==> sc.interrupted && !r.threw)
  {
  }

  /** What the `error` block (server.js:207-210) sends. */
  function ErrorNotifications(f: Frame, clientOpen: bool): seq<Notification>
  {
    if f.error.Some? then ErrorIfOpen(ApiErrorText(f.error.value), clientOpen) else []
  }

  /** Everything `handleGeminiMessage` sends for frame `f`, in order. */
  function FrameNotifications(f: Frame, clientOpen: bool): (r: seq<Notification>)
    ensures f.setupComplete ==> r == [Ready]
    ensures Ready in r ==> f.setupComplete
  {
    if f.setupComplete then [Ready]
    else
      var content :=
        if f.serverContent.Some? then ContentNotifications(f.serverContent.value) else PartsResult([], false);
      if content.threw then content.sent + ErrorIfOpen(ProcessFailedMessage, clientOpen)
      else content.sent + ErrorNotifications(f, clientOpen)
  }

  // ---------------------------------------------------------------------------
  // The loop over parts

  /** The loop over `a + b` is the loop over `a` followed, unless it threw, by
      the loop over `b`: parts are handled one after another in list order. */
  lemma {:induction false} AudioPartsAppend(a: seq<Part>, b: seq<Part>)
    ensures AudioParts(a + b) ==
      if AudioParts(a).threw then AudioParts(a)
      else PartsResult(AudioParts(a).sent + AudioParts(b).sent, AudioParts(b).threw)
    decreases |a|
  {
    if a == [] {
      assert a + b == b;
    } else {
      assert (a + b)[0] == a[0];
      assert (a + b)[1..] == a[1..] + b;
      AudioPartsAppend(a[1..], b);
    }
  }

  /** What a single part contributes. */
  lemma AudioPartsSingle(p: Part)
    ensures AudioParts([p]) ==
      if Throws(p) then PartsResult([], true)
      else if IsServerAudio(p) then PartsResult([Audio(p.inlineData.value.data.value)], false)
      else PartsResult([], false)
  {
    assert [p][1..] == [];
  }

  /** The loop throws exactly when some forwarded part lacks its data. */
  lemma {:induction false} AudioPartsThrew(parts: seq<Part>)
    ensures AudioParts(parts).threw <==> exists i :: 0 <= i < |parts| && Throws(parts[i])
    decreases |parts|
  {
    if parts != [] {
      AudioPartsThrew(parts[1..]);
      if exists i :: 0 <= i < |parts[1..]| && Throws(parts[1..][i]) {
        var i :| 0 <= i < |parts[1..]| && Throws(parts[1..][i]);
        assert Throws(parts[i + 1]);
      }
      if exists i :: 0 <= i < |parts| && Throws(parts[i]) {
        var i :| 0 <= i < |parts| && Throws(parts[i]);
        if i > 0 { assert Throws(parts[1..][i - 1]); }
      }
    }
  }

  /** The number of parts whose audio is forwarded. */
  function ServerAudioCount(parts: seq<Part>): nat
    decreases |parts|
  {
    if parts == [] then 0 else (if IsServerAudio(parts[0]) then 1 else 0) + ServerAudioCount(parts[1..])
  }

  /** When the loop runs to the end, it sends one notification per `audio/pcm` part. */
  lemma {:induction false} AudioPartsCount(parts: seq<Part>)
    requires !AudioParts(parts).threw
    ensures |AudioParts(parts).sent| == ServerAudioCount(parts)
    decreases |parts|
  {
    if parts != [] {
      AudioPartsCount(parts[1..]);
    }
  }

  /** When the loop runs to the end, a chunk is sent exactly when some
      `audio/pcm` part carries it, unchanged. */
  lemma {:induction false} AudioPartsCarry(parts: seq<Part>, d: string)
    requires !AudioParts(parts).threw
    ensures Audio(d) in AudioParts(parts).sent <==>
      exists i :: 0 <= i < |parts| && IsServerAudio(parts[i]) && parts[i].inlineData.value.data == Some(d)
    decreases |parts|
  {
    if parts != [] {
      AudioPartsCarry(parts[1..], d);
      var tail := parts[1..];
      if exists i :: 0 <= i < |tail| && IsServerAudio(tail[i]) && tail[i].inlineData.value.data == Some(d) {
        var i :| 0 <= i < |tail| && IsServerAudio(tail[i]) && tail[i].inlineData.value.data == Some(d);
        assert parts[i + 1] == tail[i];
      }
      if exists i :: 0 <= i < |parts| && IsServerAudio(parts[i]) && parts[i].inlineData.value.data == Some(d) {
        var i :| 0 <= i < |parts| && IsServerAudio(parts[i]) && parts[i].inlineData.value.data == Some(d);
        if i > 0 { assert tail[i - 1] == parts[i]; }
      }
    }
  }

  // ---------------------------------------------------------------------------
  // Whole frames

  /** How many times `n` occurs in `s`. */
  function Occurrences(s: seq<Notification>, n: Notification): nat
    decreases |s|
  {
    if s == [] then 0 else (if s[0] == n then 1 else 0) + Occurrences(s[1..], n)
  }

  lemma {:induction false} OccurrencesAppend(a: seq<Notification>, b: seq<Notification>, n: Notification)
    ensures Occurrences(a + b, n) == Occurrences(a, n) + Occurrences(b, n)
    decreases |a|
  {
    if a == [] {
      assert a + b == b;
    } else {
      assert (a + b)[1..] == a[1..] + b;
      OccurrencesAppend(a[1..], b, n);
    }
  }

  lemma {:induction false} OccurrencesNone(s: seq<Notification>, n: Notification)
    requires n !in s
    ensures Occurrences(s, n) == 0
    decreases |s|
  {
    if s != [] {
      assert s[0] != n;
      assert forall k :: 0 <= k < |s[1..]| ==> s[1..][k] == s[k + 1];
      OccurrencesNone(s[1..], n);
    }
  }

  /** A content frame whose loop runs to the end sends its audio, then exactly one
      `turn_complete` if flagged and exactly one `interrupted` if flagged, each
      decided on its own and in that order, then at most the API error; never
      `ready`, and nothing else. */
  lemma ContentFrameFlags(f: Frame, clientOpen: bool)
    requires !f.setupComplete && f.serverContent.Some?
    requires !AudioParts(TurnParts(f.serverContent.value)).threw
    ensures var r := FrameNotifications(f, clientOpen);
            var sc := f.serverContent.value;
            && Occurrences(r, TurnComplete) == (if sc.turnComplete then 1 else 0)
            && Occurrences(r, Interrupted) == (if sc.interrupted then 1 else 0)
            && Occurrences(r, Ready) == 0
            && r[..|AudioParts(TurnParts(sc)).sent|] == AudioParts(TurnParts(sc)).sent
    ensures var r := FrameNotifications(f, clientOpen);
            var sc := f.serverContent.value;
            var n := |AudioParts(TurnParts(sc)).sent|;
            && |r| == n + (if sc.turnComplete then 1 else 0) + (if sc.interrupted then 1 else 0)
                        + (if f.error.Some? && clientOpen then 1 else 0)
            && (sc.turnComplete && sc.interrupted ==> r[n] == TurnComplete && r[n + 1] == Interrupted)
            && (f.error.None? || !clientOpen ==> forall k :: n <= k < |r| ==> !r[k].Error?)
  {
    var sc := f.serverContent.value;
    var audio := AudioParts(TurnParts(sc)).sent;
    var tc := Flag(sc.turnComplete, TurnComplete);
    var it := Flag(sc.interrupted, Interrupted);
    var er := ErrorNotifications(f, clientOpen);
    assert FrameNotifications(f, clientOpen) == audio + tc + it + er;
    assert (audio + tc + it + er)[..|audio|] == audio;
    FlagsCount(audio, tc, it, er, TurnComplete);
    FlagsCount(audio, tc, it, er, Interrupted);
    FlagsCount(audio, tc, it, er, Ready);
    assert Occurrences(tc, Interrupted) == 0 && Occurrences(it, TurnComplete) == 0;
    var r := audio + tc + it + er;
    assert |er| == (if f.error.Some? && clientOpen then 1 else 0);
    if sc.turnComplete && sc.interrupted {
      assert r[|audio|] == tc[0] && r[|audio| + 1] == it[0];
    }
    if f.error.None? || !clientOpen {
      assert er == [];
      assert forall k :: |audio| <= k < |r| ==> r[k] == (tc + it)[k - |audio|];
    }
  }

  /** A non-audio notification is counted in the flags only, when the audio before
      them and the error after them cannot hold it. */
  lemma {:induction false} FlagsCount(audio: seq<Notification>, tc: seq<Notification>, it: seq<Notification>,
                                      er: seq<Notification>, n: Notification)
    requires forall k :: 0 <= k < |audio| ==> audio[k].Audio?
    requires !n.Audio? && !n.Error?
    requires forall k :: 0 <= k < |er| ==> er[k].Error?
    ensures Occurrences(audio + tc + it + er, n) == Occurrences(tc, n) + Occurrences(it, n)
  {
    OccurrencesNone(audio, n);
    OccurrencesNone(er, n);
    OccurrencesAppend(audio + tc + it, er, n);
    OccurrencesAppend(audio + tc, it, n);
    OccurrencesAppend(audio, tc, n);
  }

  /** A frame carrying an error reports `AI Error: …` once, after everything else,
      when the client is open and the parts loop did not throw. */
  lemma ErrorFrameReported(f: Frame, clientOpen: bool)
    requires !f.setupComplete && f.error.Some? && clientOpen
    requires f.serverContent.Some? ==> !AudioParts(TurnParts(f.serverContent.value)).threw
    ensures var r := FrameNotifications(f, clientOpen);
            r != [] && r[|r| - 1] == Error(ApiErrorText(f.error.value))
            && Occurrences(r, Error(ApiErrorText(f.error.value))) == 1
  {
    var e := Error(ApiErrorText(f.error.value));
    var content := if f.serverContent.Some? then AudioParts(TurnParts(f.serverContent.value)) else PartsResult([], false);
    var sc := f.serverContent;
    var head := content.sent
        + (if sc.Some? then Flag(sc.value.turnComplete, TurnComplete) else [])
        + (if sc.Some? then Flag(sc.value.interrupted, Interrupted) else []);
    assert FrameNotifications(f, clientOpen) == head + [e];
    assert e !in head;
    OccurrencesNone(head, e);
    OccurrencesAppend(head, [e], e);
  }

  /** A frame with neither a setup acknowledgement nor `server_content` (an error
      frame, or one of a kind the code does not recognise) sends the API error
      alone when there is one and the client is open, and nothing otherwise. */
  lemma ErrorOnlyFrame(f: Frame, clientOpen: bool)
    requires !f.setupComplete && f.serverContent.None?
    ensures f.error.Some? && clientOpen ==> FrameNotifications(f, clientOpen) == [Error(ApiErrorText(f.error.value))]
    ensures f.error.None? || !clientOpen ==> FrameNotifications(f, clientOpen) == []
  {
  }

  /** A forwarded part without data stops the frame: the audio before it is sent,
      then at most the processing error, and no flag or API error. */
  lemma ThrowingFrame(f: Frame, clientOpen: bool)
    requires !f.setupComplete && f.serverContent.Some?
    requires AudioParts(TurnParts(f.serverContent.value)).threw
    ensures FrameNotifications(f, clientOpen) ==
      AudioParts(TurnParts(f.serverContent.value)).sent + ErrorIfOpen(ProcessFailedMessage, clientOpen)
    ensures TurnComplete !in FrameNotifications(f, clientOpen)
    ensures Interrupted !in FrameNotifications(f, clientOpen)
  {
  }

  /** Three edge cases of the translation: an interruption alone gives one `interrupted`
      and no `turn_complete`; a setup acknowledgement beside other fields gives only
      `ready`; an error without a message reports 'Unknown error'. */
  lemma FrameExamples(open: bool, parts: seq<Part>)
    ensures FrameNotifications(Frame(false, Some(ServerContent(None, false, true)), None), open) == [Interrupted]
    ensures FrameNotifications(
              Frame(true, Some(ServerContent(Some(ModelTurn(Some(parts))), true, true)), Some(ApiError(None))), open)
            == [Ready]
    ensures FrameNotifications(Frame(false, None, Some(ApiError(Some("")))), true)
            == [Error("AI Error: Unknown error")]
  {
    assert ApiErrorText(ApiError(Some(""))) == "AI Error: Unknown error";
  }
}
