/** The per-client upstream session, `GeminiLiveClient` (server.js:38-272), as a
    class whose fields its handlers update. Each upstream transport event is a
    method; the reconnect timer of server.js:114 is the counter
    `pendingReconnects`, and firing it is the method `FireReconnect`. */
module LiveClient {
  import opened Wrappers
  import opened Protocol
  import opened Policy
  import opened Translate
  import opened Sockets

  /** The two environment settings `connect` reads on every call (server.js:49, 60). */
  datatype Env = Env(apiKey: Option<string>, model: Option<string>)

  const SetupFailedMessage := "Failed to setup AI session"
  const ParseFailedMessage := "Failed to parse AI response"
  const NotConnectedMessage := "Not connected to AI service"
  const NoAudioMessage := "No audio data received"
  const SendFailedMessage := "Failed to send audio to AI"
  const ConnectionErrorPrefix := "Connection error: "

  class GeminiLiveClient {
    var ws: UpstreamSocket?
    var isConnected: bool
    var clientWs: ClientSocket?
    var reconnectAttempts: nat
    const maxReconnectAttempts: nat := MaxReconnectAttempts
    /** Reconnect timers scheduled and not yet fired. */
    var pendingReconnects: nat
    /** The model name the handlers of the latest socket captured (server.js:60, 73). */
    var model: string

    ghost predicate Valid()
      reads this
    {
      && reconnectAttempts <= maxReconnectAttempts
      && (ws != null ==> clientWs != null)
      && (isConnected ==> ws != null)
      && (pendingReconnects > 0 ==> ws != null)
    }

    /** Every notification handed to the client socket so far. */
    ghost function ClientLog(): seq<Notification>
      reads this, clientWs
    {
      if clientWs == null then [] else clientWs.sent
    }

    /** What one `sendError(message)` call would send in the current state. */
    ghost function ErrorSends(message: string): (r: seq<Notification>)
      reads this, clientWs
      ensures r == [] || r == [Error(message)]
    {
      if clientWs == null then [] else ErrorIfOpen(message, clientWs.open)
    }

    constructor ()
      ensures Valid()
      ensures ws == null && !isConnected && clientWs == null
      ensures reconnectAttempts == 0 && pendingReconnects == 0
    {
      ws := null;
      isConnected := false;
      clientWs := null;
      reconnectAttempts := 0;
      pendingReconnects := 0;
      model := DefaultModel;
    }

    /** server.js:257-264: only a present, OPEN client is told. */
    method SendError(message: string)
      modifies clientWs
      ensures ClientLog() == old(ClientLog()) + old(ErrorSends(message))
      ensures clientWs != null ==> clientWs.sent == old(clientWs.sent) + ErrorIfOpen(message, old(clientWs.open))
      ensures clientWs != null ==> clientWs.open == old(clientWs.open)
    {
      if clientWs != null && clientWs.open {
        clientWs.Send(Error(message));
      }
    }

    /** server.js:47-125. A rejected key throws before any socket is made and
        before `clientWs` is set; otherwise a new upstream socket replaces `ws`
        (the previous one is not closed) and the client handle is stored. The
        result is the message of the thrown error, if any. */
    method Connect(client: ClientSocket, env: Env) returns (thrown: Option<string>)
      requires Valid()
      modifies this, clientWs
      ensures Valid()
      ensures thrown == KeyProblem(env.apiKey)
      ensures isConnected == old(isConnected) && reconnectAttempts == old(reconnectAttempts)
      ensures pendingReconnects == old(pendingReconnects)
      ensures thrown.Some? ==> ws == old(ws) && clientWs == old(clientWs) && model == old(model)
      ensures thrown.Some? ==>
        ClientLog() == old(ClientLog()) + old(ErrorSends(ConnectionErrorPrefix + thrown.value))
      ensures thrown.None? ==> fresh(ws) && ws.sent == [] && ws.closeCalls == 0
      ensures thrown.None? ==> clientWs == client && model == ModelOrDefault(env.model)
      ensures thrown.None? && old(clientWs) != null ==> old(clientWs).sent == old(clientWs.sent)
      ensures old(clientWs) != null ==> old(clientWs).open == old(clientWs.open)
    {
      thrown := KeyProblem(env.apiKey);
      if thrown.Some? {
        SendError(ConnectionErrorPrefix + thrown.value);
        return;
      }
      model := ModelOrDefault(env.model);
      ws := new UpstreamSocket();
      clientWs := client;
    }

    /** server.js:127-160: one setup frame, or an error if `send` throws. */
    method SetupSession(name: string, sendThrows: bool)
      requires Valid() && ws != null
      modifies ws, clientWs
      ensures ws.sent == old(ws.sent) + (if sendThrows then [] else [SetupFrame(BuildSetup(name))])
      ensures ws.closeCalls == old(ws.closeCalls)
      ensures ClientLog() == old(ClientLog()) + (if sendThrows then old(ErrorSends(SetupFailedMessage)) else [])
      ensures clientWs.open == old(clientWs.open)
    {
      if sendThrows {
        SendError(SetupFailedMessage);
      } else {
        ws.Send(SetupFrame(BuildSetup(name)));
      }
    }

    /** The 'open' handler (server.js:69-74). */
    method OnOpen(sendThrows: bool)
      requires Valid() && ws != null
      modifies this, ws, clientWs
      ensures Valid()
      ensures isConnected && reconnectAttempts == 0
      ensures ws == old(ws) && clientWs == old(clientWs) && model == old(model)
      ensures pendingReconnects == old(pendingReconnects)
      ensures ws.sent == old(ws.sent) + (if sendThrows then [] else [SetupFrame(BuildSetup(model))])
      ensures ws.closeCalls == old(ws.closeCalls)
      ensures ClientLog() == old(ClientLog()) + (if sendThrows then old(ErrorSends(SetupFailedMessage)) else [])
      ensures clientWs.open == old(clientWs.open)
    {
      isConnected := true;
      reconnectAttempts := 0;
      SetupSession(model, sendThrows);
    }

    /** The loop of server.js:177-187 over `model_turn.parts`: one `audio`
        notification per `audio/pcm` part, in order, stopping at a part whose
        data is missing (reading its length throws). */
    method ForwardAudioParts(parts: seq<Part>) returns (threw: bool)
      requires clientWs != null
      modifies clientWs
      ensures threw == AudioParts(parts).threw
      ensures clientWs.sent == old(clientWs.sent) + AudioParts(parts).sent
      ensures clientWs.open == old(clientWs.open)
    {
      var i := 0;
      while i < |parts|
        invariant 0 <= i <= |parts|
        invariant clientWs.open == old(clientWs.open)
        invariant !AudioParts(parts[..i]).threw
        invariant clientWs.sent == old(clientWs.sent) + AudioParts(parts[..i]).sent
      {
        AudioPartsAppend(parts[..i], [parts[i]]);
        AudioPartsSingle(parts[i]);
        assert parts[..i + 1] == parts[..i] + [parts[i]];
        if Throws(parts[i]) {
          AudioPartsAppend(parts[..i + 1], parts[i + 1..]);
          assert parts[..i + 1] + parts[i + 1..] == parts;
          return true;
        }
        if IsServerAudio(parts[i]) {
          clientWs.Send(Audio(parts[i].inlineData.value.data.value));
        }
        i := i + 1;
      }
      assert parts[..i] == parts;
      return false;
    }

    /** The `server_content` block of server.js:173-204. */
    method ForwardContent(sc: ServerContent) returns (threw: bool)
      requires clientWs != null
      modifies clientWs
      ensures threw == ContentNotifications(sc).threw
      ensures clientWs.sent == old(clientWs.sent) + ContentNotifications(sc).sent
      ensures clientWs.open == old(clientWs.open)
    {
      threw := ForwardAudioParts(TurnParts(sc));
      if threw {
        return;
      }
      if sc.turnComplete {
        clientWs.Send(TurnComplete);
      }
      if sc.interrupted {
        clientWs.Send(Interrupted);
      }
    }

    /** server.js:162-216. */
    method HandleGeminiMessage(frame: Frame)
      requires Valid() && clientWs != null
      modifies clientWs
      ensures clientWs.sent == old(clientWs.sent) + FrameNotifications(frame, old(clientWs.open))
      ensures clientWs.open == old(clientWs.open)
    {
      if frame.setupComplete {
        clientWs.Send(Ready);
        return;
      }
      if frame.serverContent.Some? {
        var threw := ForwardContent(frame.serverContent.value);
        if threw {
          // the catch at server.js:212-215
          SendError(ProcessFailedMessage);
          return;
        }
      }
      if frame.error.Some? {
        SendError(ApiErrorText(frame.error.value));
      }
    }

    /** The 'message' handler (server.js:76-85); `None` is a payload `JSON.parse` rejected. */
    method OnMessage(data: Option<Frame>)
      requires Valid() && ws != null
      modifies clientWs
      ensures data.Some? ==> clientWs.sent == old(clientWs.sent) + FrameNotifications(data.value, old(clientWs.open))
      ensures data.None? ==> clientWs.sent == old(clientWs.sent) + ErrorIfOpen(ParseFailedMessage, old(clientWs.open))
      ensures clientWs.open == old(clientWs.open)
    {
      if data.None? {
        SendError(ParseFailedMessage);
      } else {
        HandleGeminiMessage(data.value);
      }
    }

    /** The 'error' handler (server.js:87-104): exactly one classified error. */
    method OnError(message: Option<string>)
      requires Valid() && ws != null
      modifies clientWs
      ensures clientWs.sent == old(clientWs.sent) + ErrorIfOpen(TransportErrorMessage(message), old(clientWs.open))
      ensures clientWs.open == old(clientWs.open)
    {
      SendError(TransportErrorMessage(message));
    }

    /** The 'close' handler (server.js:106-118). */
    method OnClose(code: nat, reason: string)
      requires Valid() && ws != null
      modifies this, clientWs
      ensures Valid()
      ensures !isConnected
      ensures ws == old(ws) && clientWs == old(clientWs) && model == old(model)
      ensures CloseOutcomeOf(old(reconnectAttempts), code, reason).Reconnect? ==>
        && reconnectAttempts == old(reconnectAttempts) + 1
        && pendingReconnects == old(pendingReconnects) + 1
        && clientWs.sent == old(clientWs.sent)
      ensures CloseOutcomeOf(old(reconnectAttempts), code, reason).Report? ==>
        && reconnectAttempts == old(reconnectAttempts)
        && pendingReconnects == old(pendingReconnects)
        && clientWs.sent == old(clientWs.sent)
             + ErrorIfOpen(CloseOutcomeOf(old(reconnectAttempts), code, reason).message, old(clientWs.open))
      ensures clientWs.open == old(clientWs.open)
    {
      isConnected := false;
      if code != NormalClosure && reconnectAttempts < maxReconnectAttempts {
        reconnectAttempts := reconnectAttempts + 1;
        pendingReconnects := pendingReconnects + 1;
      } else {
        SendError(ClosedMessage(code, reason));
      }
    }

    /** A scheduled timer fires: `this.connect(this.clientWs)` (server.js:114). The
        rejection of a failed attempt goes unhandled; it is returned here. */
    method FireReconnect(env: Env) returns (rejected: Option<string>)
      requires Valid() && pendingReconnects > 0
      modifies this, clientWs
      ensures Valid()
      ensures pendingReconnects == old(pendingReconnects) - 1
      ensures rejected == KeyProblem(env.apiKey)
      ensures isConnected == old(isConnected) && reconnectAttempts == old(reconnectAttempts)
      ensures clientWs == old(clientWs) && clientWs.open == old(clientWs.open)
      ensures rejected.Some? ==> ws == old(ws) && model == old(model)
      ensures rejected.Some? ==>
        clientWs.sent == old(clientWs.sent) + ErrorIfOpen(ConnectionErrorPrefix + rejected.value, old(clientWs.open))
      ensures rejected.None? ==> fresh(ws) && ws.sent == [] && ws.closeCalls == 0
      ensures rejected.None? ==> model == ModelOrDefault(env.model) && clientWs.sent == old(clientWs.sent)
    {
      pendingReconnects := pendingReconnects - 1;
      rejected := Connect(clientWs, env);
    }

    /** server.js:218-255: the connection guard, then the empty-data guard, then
        one complete one-shot turn. */
    method SendAudio(audio: string, sendThrows: bool)
      requires Valid()
      modifies ws, clientWs
      ensures !isConnected || ws == null ==>
        && ClientLog() == old(ClientLog()) + old(ErrorSends(NotConnectedMessage))
        && (ws != null ==> ws.sent == old(ws.sent))
      ensures isConnected && ws != null && audio == [] ==>
        ClientLog() == old(ClientLog()) + old(ErrorSends(NoAudioMessage)) && ws.sent == old(ws.sent)
      ensures isConnected && ws != null && audio != [] && sendThrows ==>
        ClientLog() == old(ClientLog()) + old(ErrorSends(SendFailedMessage)) && ws.sent == old(ws.sent)
      ensures isConnected && ws != null && audio != [] && !sendThrows ==>
        ClientLog() == old(ClientLog()) && ws.sent == old(ws.sent) + [ContentFrame(BuildAudioTurn(audio))]
      ensures ws != null ==> ws.closeCalls == old(ws.closeCalls)
      ensures clientWs != null ==> clientWs.open == old(clientWs.open)
    {
      if !isConnected || ws == null {
        SendError(NotConnectedMessage);
        return;
      }
      if |audio| == 0 {
        SendError(NoAudioMessage);
        return;
      }
      if sendThrows {
        SendError(SendFailedMessage);
      } else {
        ws.Send(ContentFrame(BuildAudioTurn(audio)));
      }
    }

    /** server.js:266-271: `close()` on whatever socket `ws` holds, which is never
        cleared, and `isConnected` off. Scheduled reconnects are left pending. */
    method Disconnect()
      requires Valid()
      modifies this, ws
      ensures Valid()
      ensures !isConnected
      ensures ws == old(ws) && clientWs == old(clientWs) && model == old(model)
      ensures reconnectAttempts == old(reconnectAttempts) && pendingReconnects == old(pendingReconnects)
      ensures ws != null ==> ws.closeCalls == old(ws.closeCalls) + 1 && ws.sent == old(ws.sent)
    {
      if ws != null {
        ws.Close();
      }
      isConnected := false;
    }
  }
}
