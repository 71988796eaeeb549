/** The per-connection handler of server.js:275-332: one `GeminiLiveClient` per
    browser connection, the `switch` over client message types, and teardown
    when the browser goes away. */
module Gateway {
  import opened Wrappers
  import opened Protocol
  import opened Policy
  import opened Sockets
  import opened LiveClient

  /** A client message after `JSON.parse`, by its `type` field. `Malformed` is a
      message whose handling threw before the switch (a payload `JSON.parse`
      rejects, or one that parses to `null`, so that reading its `type` throws); it carries the thrown error's message. */
  datatype ClientMessage =
    | StartSession
    | AudioData(audio: Option<string>)
    | EndSession
    | Ping
    | UnknownType(tag: Option<string>)
    | Malformed(errorMessage: string)

  const ServerErrorPrefix := "Server error: "

  class ClientConnection {
    const ws: ClientSocket
    const geminiClient: GeminiLiveClient

    ghost predicate Valid()
      reads this, geminiClient
    {
      geminiClient.Valid() && (geminiClient.clientWs == null || geminiClient.clientWs == ws)
    }

    /** server.js:275-278. */
    constructor (socket: ClientSocket)
      ensures Valid() && ws == socket && fresh(geminiClient)
      ensures geminiClient.ws == null && geminiClient.clientWs == null && !geminiClient.isConnected
      ensures geminiClient.reconnectAttempts == 0 && geminiClient.pendingReconnects == 0
    {
      ws := socket;
      geminiClient := new GeminiLiveClient();
    }

    /** The 'message' handler (server.js:280-322). */
    method OnMessage(msg: ClientMessage, env: Env, sendThrows: bool)
      requires Valid()
      modifies ws, geminiClient, geminiClient.ws
      ensures Valid()
      ensures ws.open == old(ws.open)
      // only end_session closes the upstream socket
      ensures !msg.EndSession? && old(geminiClient.ws) != null ==>
        old(geminiClient.ws).closeCalls == old(geminiClient.ws.closeCalls)
      // only audio_data sends upstream
      ensures !msg.AudioData? && old(geminiClient.ws) != null ==>
        old(geminiClient.ws).sent == old(geminiClient.ws.sent)
      // start_session: connect; a rejected key is answered with 'Server error: …'
      ensures msg.StartSession? && KeyProblem(env.apiKey).Some? ==>
        var p := KeyProblem(env.apiKey).value;
        && geminiClient.ws == old(geminiClient.ws)
        && geminiClient.clientWs == old(geminiClient.clientWs)
        && geminiClient.model == old(geminiClient.model)
        && ws.sent == old(ws.sent)
             + (if old(geminiClient.clientWs) != null && old(ws.open) then [Error(ConnectionErrorPrefix + p)] else [])
             + [Error(ServerErrorPrefix + p)]
      ensures msg.StartSession? && KeyProblem(env.apiKey).None? ==>
        && fresh(geminiClient.ws) && geminiClient.ws.sent == [] && geminiClient.ws.closeCalls == 0
        && geminiClient.clientWs == ws && ws.sent == old(ws.sent)
        && geminiClient.model == ModelOrDefault(env.model)
      ensures msg.StartSession? ==>
        && geminiClient.isConnected == old(geminiClient.isConnected)
        && geminiClient.reconnectAttempts == old(geminiClient.reconnectAttempts)
        && geminiClient.pendingReconnects == old(geminiClient.pendingReconnects)
      // audio_data without audio: an error, and sendAudio is never reached
      ensures msg.AudioData? && (msg.audio.None? || msg.audio.value == []) ==>
        && ws.sent == old(ws.sent) + [Error(NoAudioMessage)]
        && unchanged(geminiClient)
        && (geminiClient.ws != null ==> unchanged(geminiClient.ws))
      // audio_data with audio: exactly what sendAudio does
      ensures msg.AudioData? && msg.audio.Some? && msg.audio.value != [] ==>
        var c := geminiClient;
        && unchanged(c)
        && (!c.isConnected || c.ws == null ==>
              ws.sent == old(ws.sent) + (if c.clientWs != null && old(ws.open) then [Error(NotConnectedMessage)] else [])
              && (c.ws != null ==> c.ws.sent == old(c.ws.sent)))
        && (c.isConnected && c.ws != null && sendThrows ==>
              ws.sent == old(ws.sent) + (if old(ws.open) then [Error(SendFailedMessage)] else [])
              && c.ws.sent == old(c.ws.sent))
        && (c.isConnected && c.ws != null && !sendThrows ==>
              ws.sent == old(ws.sent)
              && c.ws.sent == old(c.ws.sent) + [ContentFrame(BuildAudioTurn(msg.audio.value))])
      // end_session: disconnect
      ensures msg.EndSession? ==>
        && !geminiClient.isConnected && ws.sent == old(ws.sent)
        && geminiClient.ws == old(geminiClient.ws)
        && geminiClient.clientWs == old(geminiClient.clientWs) && geminiClient.model == old(geminiClient.model)
        && geminiClient.reconnectAttempts == old(geminiClient.reconnectAttempts)
        && geminiClient.pendingReconnects == old(geminiClient.pendingReconnects)
        && (geminiClient.ws != null ==>
              geminiClient.ws.closeCalls == old(geminiClient.ws.closeCalls) + 1 && geminiClient.ws.sent == old(geminiClient.ws.sent))
      // ping: pong, and the session is not touched
      ensures msg.Ping? ==>
        && ws.sent == old(ws.sent) + [Pong]
        && unchanged(geminiClient)
        && (geminiClient.ws != null ==> unchanged(geminiClient.ws))
      // unknown type: nothing at all
      ensures msg.UnknownType? ==>
        && unchanged(ws) && unchanged(geminiClient)
        && (geminiClient.ws != null ==> unchanged(geminiClient.ws))
      // a message whose handling threw: 'Server error: …'
      ensures msg.Malformed? ==>
        && ws.sent == old(ws.sent) + [Error(ServerErrorPrefix + msg.errorMessage)]
        && unchanged(geminiClient)
        && (geminiClient.ws != null ==> unchanged(geminiClient.ws))
    {
      match msg {
        case StartSession =>
          var thrown := geminiClient.Connect(ws, env);
          if thrown.Some? {
            // the catch at server.js:315-321
            ws.Send(Error(ServerErrorPrefix + thrown.value));
          }
        case AudioData(audio) =>
          if audio.None? || |audio.value| == 0 {
            ws.Send(Error(NoAudioMessage));
            return;
          }
          geminiClient.SendAudio(audio.value, sendThrows);
        case EndSession =>
          geminiClient.Disconnect();
        case Ping =>
          ws.Send(Pong);
        case UnknownType(_) =>
        case Malformed(e) =>
          ws.Send(Error(ServerErrorPrefix + e));
      }
    }

    /** The 'close' handler (server.js:324-327): the socket is CLOSED, the session
        disconnected. */
    method OnClose()
      requires Valid()
      modifies ws, geminiClient, geminiClient.ws
      ensures Valid()
      ensures !ws.open && ws.sent == old(ws.sent)
      ensures !geminiClient.isConnected
      ensures geminiClient.ws == old(geminiClient.ws)
      ensures geminiClient.clientWs == old(geminiClient.clientWs) && geminiClient.model == old(geminiClient.model)
      ensures geminiClient.reconnectAttempts == old(geminiClient.reconnectAttempts)
      ensures geminiClient.pendingReconnects == old(geminiClient.pendingReconnects)
      ensures geminiClient.ws != null ==>
        geminiClient.ws.closeCalls == old(geminiClient.ws.closeCalls) + 1 && geminiClient.ws.sent == old(geminiClient.ws.sent)
    {
      ws.MarkClosed();
      geminiClient.Disconnect();
    }
  }
}
