/** Whole sessions, from the browser's `start_session` to the end, driven
    through the gateway and the upstream session's event handlers on fresh
    objects. Each result is what the two sockets recorded. */
module Scenarios {
  import opened Wrappers
  import opened Text
  import opened Protocol
  import opened Policy
  import opened Translate
  import opened Sockets
  import opened LiveClient
  import opened Gateway

  const GoodEnv := Env(Some("AIzaSyExample"), None)

  /** One `audio/pcm` part carrying `data`. */
  function PcmPart(data: string): Part
  {
    Part(Some(InlineData(Some(ServerAudioMime), Some(data))))
  }

  /** An upstream frame with one model turn and the given flags. */
  function ContentFrameOf(parts: seq<Part>, turnComplete: bool, interrupted: bool): Frame
  {
    Frame(false, Some(ServerContent(Some(ModelTurn(Some(parts))), turnComplete, interrupted)), None)
  }

  /** The decimal text of the two close codes the scenarios use. */
  lemma CodeText(code: nat)
    requires code == 1000 || code == 1006
    ensures code == 1000 ==> NatToString(code) == "1000"
    ensures code == 1006 ==> NatToString(code) == "1006"
  {
    assert NatToString(1) == "1";
    assert NatToString(10) == NatToString(1) + "0";
    assert NatToString(100) == NatToString(10) + "0";
    assert NatToString(code) == NatToString(100) + [DigitChar(code % 10)];
  }

  /** A part that is not `audio/pcm` is skipped and the audio after it is sent. */
  lemma SkipThenAudio(other: Part, data: string)
    requires !IsServerAudio(other)
    ensures AudioParts([other, PcmPart(data)]) == PartsResult([Audio(data)], false)
  {
    var parts := [other, PcmPart(data)];
    assert parts[1..] == [PcmPart(data)];
    assert parts[1..][1..] == [];
    assert IsServerAudio(PcmPart(data)) && !Throws(PcmPart(data));
    assert AudioParts(parts[1..]) == PartsResult([Audio(data)], false);
  }

  /** The two frames of the interruption scenario: audio after a skipped part, and
      an interruption without a model turn. */
  lemma SkippedPartAndInterruption(other: Part, data: string)
    requires !IsServerAudio(other)
    ensures FrameNotifications(ContentFrameOf([other, PcmPart(data)], false, false), true) == [Audio(data)]
    ensures FrameNotifications(Frame(false, Some(ServerContent(None, false, true)), None), true) == [Interrupted]
  {
    SkipThenAudio(other, data);
    var sc := ServerContent(None, false, true);
    assert TurnParts(sc) == [];
    assert ContentNotifications(sc) == PartsResult([Interrupted], false);
  }

  /** start_session, the upstream opens, the setup is acknowledged, one chunk of
      microphone audio goes up and one spoken reply with a turn end comes back. */
  method ConversationScenario() returns (toClient: seq<Notification>, upstream: seq<UpstreamMsg>)
    ensures toClient == [Ready, Audio("UklGRg"), TurnComplete]
    ensures upstream == [SetupFrame(BuildSetup(DefaultModel)), ContentFrame(BuildAudioTurn("GkXfow"))]
  {
    var socket := new ClientSocket();
    var conn := new ClientConnection(socket);
    conn.OnMessage(StartSession, GoodEnv, false);
    var session := conn.geminiClient;
    assert socket.sent == [] && session.ws.sent == [] && session.model == DefaultModel;
    session.OnOpen(false);
    assert socket.sent == [] && socket.open && session.isConnected;
    session.OnMessage(Some(Frame(true, None, None)));
    assert socket.sent == [Ready];
    conn.OnMessage(AudioData(Some("GkXfow")), GoodEnv, false);
    assert socket.sent == [Ready] && socket.open;
    var reply := ContentFrameOf([PcmPart("UklGRg")], true, false);
    assert AudioParts([PcmPart("UklGRg")]) == PartsResult([Audio("UklGRg")], false) by {
      assert [PcmPart("UklGRg")][1..] == [];
    }
    assert FrameNotifications(reply, true) == [Audio("UklGRg"), TurnComplete];
    session.OnMessage(Some(reply));
    toClient := socket.sent;
    upstream := session.ws.sent;
  }

  /** A reply the user talks over: audio, then an interruption frame without a
      model turn; a part in another format is skipped. */
  method InterruptionScenario() returns (toClient: seq<Notification>)
    ensures toClient == [Ready, Audio("AAAA"), Interrupted]
  {
    var socket := new ClientSocket();
    var conn := new ClientConnection(socket);
    conn.OnMessage(StartSession, GoodEnv, false);
    var session := conn.geminiClient;
    session.OnOpen(false);
    session.OnMessage(Some(Frame(true, None, None)));
    assert socket.sent == [Ready] && socket.open;
    var text := Part(Some(InlineData(Some("text/plain"), Some("hi"))));
    assert !IsServerAudio(text) by {
      assert "text/plain"[0] != ServerAudioMime[0];
    }
    var reply := ContentFrameOf([text, PcmPart("AAAA")], false, false);
    var interruption := Frame(false, Some(ServerContent(None, false, true)), None);
    SkippedPartAndInterruption(text, "AAAA");
    session.OnMessage(Some(reply));
    assert socket.sent == [Ready, Audio("AAAA")];
    session.OnMessage(Some(interruption));
    toClient := socket.sent;
  }

  /** The upstream never opens and keeps closing abnormally: three reconnects are
      made and the close handler reports nothing for them, the fourth close is reported, and no timer is left. */
  method ReconnectLimitScenario(reason: string) returns (toClient: seq<Notification>, pending: nat, attempts: nat)
    ensures toClient == [Error("Connection closed: " + "1006" + " " + reason)]
    ensures pending == 0 && attempts == MaxReconnectAttempts
  {
    var socket := new ClientSocket();
    var conn := new ClientConnection(socket);
    conn.OnMessage(StartSession, GoodEnv, false);
    var session := conn.geminiClient;
    var i := 0;
    while i < 3
      invariant 0 <= i <= 3
      invariant session.Valid() && session.ws != null && session.clientWs == socket
      invariant fresh(session.ws) && session.ws != null
      invariant session.reconnectAttempts == i && session.pendingReconnects == 0
      invariant socket.open && socket.sent == []
    {
      session.OnClose(1006, reason);
      var rejected := session.FireReconnect(GoodEnv);
      i := i + 1;
    }
    assert CloseOutcomeOf(3, 1006, reason) == Report(ClosedMessage(1006, reason));
    session.OnClose(1006, reason);
    CodeText(1006);
    toClient := socket.sent;
    pending := session.pendingReconnects;
    attempts := session.reconnectAttempts;
  }

  /** A normal closure from the server is still reported as an error, and is
      never retried. */
  method NormalClosureScenario() returns (toClient: seq<Notification>, pending: nat)
    ensures toClient == [Ready, Error("Connection closed: " + "1000" + " " + "bye")]
    ensures pending == 0
  {
    var socket := new ClientSocket();
    var conn := new ClientConnection(socket);
    conn.OnMessage(StartSession, GoodEnv, false);
    var session := conn.geminiClient;
    session.OnOpen(false);
    session.OnMessage(Some(Frame(true, None, None)));
    assert socket.sent == [Ready] && socket.open && session.reconnectAttempts == 0;
    session.OnClose(1000, "bye");
    CodeText(1000);
    toClient := socket.sent;
    pending := session.pendingReconnects;
  }

  /** end_session twice closes the same upstream socket twice; a reconnect
      scheduled before the first one still fires afterwards and opens a new one. */
  method EndSessionScenario() returns (closeCalls: nat, replaced: bool, newCloseCalls: nat, toClient: seq<Notification>)
    ensures closeCalls == 2 && replaced && newCloseCalls == 0 && toClient == []
  {
    var socket := new ClientSocket();
    var conn := new ClientConnection(socket);
    conn.OnMessage(StartSession, GoodEnv, false);
    var session := conn.geminiClient;
    var first := session.ws;
    session.OnClose(1006, "lost");
    conn.OnMessage(EndSession, GoodEnv, false);
    conn.OnMessage(EndSession, GoodEnv, false);
    var rejected := session.FireReconnect(GoodEnv);
    closeCalls := first.closeCalls;
    replaced := session.ws != first;
    newCloseCalls := session.ws.closeCalls;
    toClient := socket.sent;
  }

  /** A second start_session after the upstream opened: `isConnected` stays true
      while `ws` is a new socket that has not opened, so the next chunk of audio
      is sent on it with no setup frame before it; the first socket keeps its
      setup frame and is never closed. */
  method SecondStartScenario() returns (connected: bool, newUpstream: seq<UpstreamMsg>, oldUpstream: seq<UpstreamMsg>, oldCloseCalls: nat, toClient: seq<Notification>)
    ensures connected
    ensures newUpstream == [ContentFrame(BuildAudioTurn("GkXfow"))]
    ensures oldUpstream == [SetupFrame(BuildSetup(DefaultModel))] && oldCloseCalls == 0
    ensures toClient == []
  {
    var socket := new ClientSocket();
    var conn := new ClientConnection(socket);
    conn.OnMessage(StartSession, GoodEnv, false);
    var session := conn.geminiClient;
    var first := session.ws;
    session.OnOpen(false);
    assert session.isConnected && first.sent == [SetupFrame(BuildSetup(DefaultModel))];
    assert socket.sent == [] && socket.open && first.closeCalls == 0;
    conn.OnMessage(StartSession, GoodEnv, false);
    assert session.ws != first && session.ws.sent == [] && session.isConnected;
    conn.OnMessage(AudioData(Some("GkXfow")), GoodEnv, false);
    connected := session.isConnected;
    newUpstream := session.ws.sent;
    oldUpstream := first.sent;
    oldCloseCalls := first.closeCalls;
    toClient := socket.sent;
  }

  /** A key that does not start with "AI": on the first start_session the session
      has no client handle yet, so only the gateway's catch answers; once a session
      exists, the same rejection is reported twice. */
  method BadKeyScenario() returns (first: seq<Notification>, second: seq<Notification>)
    ensures first == [Error("Server error: " + BadKeyFormatMessage)]
    ensures second == first + [Error("Connection error: " + BadKeyFormatMessage), Error("Server error: " + BadKeyFormatMessage)]
  {
    var bad := Env(Some("sk-123"), None);
    var socket := new ClientSocket();
    var conn := new ClientConnection(socket);
    conn.OnMessage(StartSession, bad, false);
    first := socket.sent;
    conn.OnMessage(StartSession, GoodEnv, false);
    conn.OnMessage(StartSession, bad, false);
    second := socket.sent;
  }

  /** Messages that never reach the upstream: audio before any session (the
      session has no client handle, so nothing is said), ping, an unknown type,
      audio without data, and a payload that failed to parse. */
  method ControlMessagesScenario(thrown: string) returns (toClient: seq<Notification>)
    ensures toClient == [Pong, Error("No audio data received"), Error("Server error: " + thrown)]
  {
    var socket := new ClientSocket();
    var conn := new ClientConnection(socket);
    conn.OnMessage(AudioData(Some("GkXfow")), GoodEnv, false);
    assert socket.sent == [] && socket.open && conn.geminiClient.clientWs == null;
    conn.OnMessage(Ping, GoodEnv, false);
    assert socket.sent == [Pong];
    conn.OnMessage(UnknownType(Some("hello")), GoodEnv, false);
    assert socket.sent == [Pong];
    conn.OnMessage(AudioData(None), GoodEnv, false);
    assert socket.sent == [Pong, Error(NoAudioMessage)];
    conn.OnMessage(Malformed(thrown), GoodEnv, false);
    toClient := socket.sent;
  }

  /** Audio while the upstream is still opening is refused; after the browser
      goes away, errors from upstream are no longer delivered. */
  method NotConnectedScenario(upstreamError: Option<string>) returns (toClient: seq<Notification>, upstreamSent: nat, closeCalls: nat)
    ensures toClient == [Error("Not connected to AI service")]
    ensures upstreamSent == 0 && closeCalls == 1
  {
    var socket := new ClientSocket();
    var conn := new ClientConnection(socket);
    conn.OnMessage(StartSession, GoodEnv, false);
    var session := conn.geminiClient;
    assert socket.sent == [] && socket.open && !session.isConnected && session.ws.sent == [];
    conn.OnMessage(AudioData(Some("GkXfow")), GoodEnv, false);
    assert socket.sent == [Error(NotConnectedMessage)] && session.ws.sent == [] && session.ws.closeCalls == 0;
    conn.OnClose();
    var upstream := session.ws;
    assert !socket.open && session.clientWs == socket && upstream.closeCalls == 1 && upstream.sent == [];
    session.OnError(upstreamError);
    assert session.ws == upstream;
    toClient := socket.sent;
    upstreamSent := |session.ws.sent|;
    closeCalls := session.ws.closeCalls;
  }
}
