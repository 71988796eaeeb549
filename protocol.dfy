/** The messages the relay exchanges: notifications to the browser client,
    frames sent upstream (the setup handshake and one-shot audio turns), and the
    upstream frames it receives, already decoded from JSON. */
module Protocol {
  import opened Wrappers
  import Text

  /** What `clientWs.send` receives, by its `type` field (server.js:166-203, 259-262, 294-319). */
  datatype Notification =
    | Ready                    // carries the fixed text 'AI assistant is ready to chat!'
    | Audio(data: string)
    | TurnComplete
    | Interrupted
    | Error(message: string)
    | Pong

  /** The handshake frame of server.js:128-149. The system instruction text and the
      temperature are fixed for every session and are not represented. */
  datatype Setup = Setup(
    model: string,
    responseModalities: seq<string>,
    voiceName: string,
    maxOutputTokens: nat)

  /** One inline blob of a client turn. */
  datatype Blob = Blob(mimeType: string, data: string)

  datatype Turn = Turn(role: string, parts: seq<Blob>)

  /** The `client_content` frame of server.js:231-244. */
  datatype ClientContent = ClientContent(turns: seq<Turn>, turnComplete: bool)

  /** What `ws.send` receives. */
  datatype UpstreamMsg = SetupFrame(setup: Setup) | ContentFrame(content: ClientContent)

  /** An upstream frame after `JSON.parse`; each flag stands for the truthiness of the
      field of that name, each `Option` for a field that may be absent. */
  datatype Frame = Frame(
    setupComplete: bool,
    serverContent: Option<ServerContent>,
    error: Option<ApiError>)

  datatype ServerContent = ServerContent(
    modelTurn: Option<ModelTurn>,
    turnComplete: bool,
    interrupted: bool)

  datatype ModelTurn = ModelTurn(parts: Option<seq<Part>>)

  datatype Part = Part(inlineData: Option<InlineData>)

  datatype InlineData = InlineData(mimeType: Option<string>, data: Option<string>)

  datatype ApiError = ApiError(message: Option<string>)

  const DefaultModel := "gemini-2.0-flash-live-001"
  const ModelPrefix := "models/"
  const VoiceName := "Aoede"
  const MaxOutputTokens := 1024
  const ClientAudioMime := "audio/webm"
  const ServerAudioMime := "audio/pcm"

  /** `process.env.GEMINI_MODEL || 'gemini-2.0-flash-live-001'` (server.js:60):
      an absent or empty setting falls back to the default. */
  function ModelOrDefault(configured: Option<string>): (r: string)
    ensures r != ""
    ensures configured.Some? && configured.value != "" ==> r == configured.value
    ensures r != DefaultModel ==> configured == Some(r)
  {
    if configured.Some? && configured.value != "" then configured.value else DefaultModel
  }

  /** The setup frame for a model name (server.js:128-149). */
  function BuildSetup(model: string): (r: Setup)
    ensures SetupModel(r) == Some(model)
    ensures r.responseModalities == ["AUDIO"] && r.voiceName == VoiceName
    ensures r.maxOutputTokens == MaxOutputTokens
  {
    Setup(ModelPrefix + model, ["AUDIO"], VoiceName, MaxOutputTokens)
  }

  /** The model name a setup frame asks for, read back from its `models/…` field. */
  function SetupModel(s: Setup): Option<string>
  {
    if Text.StartsWith(s.model, ModelPrefix) then Some(s.model[|ModelPrefix|..]) else None
  }

  /** Two setup frames are the same exactly when they name the same model. */
  lemma BuildSetupInjective(m1: string, m2: string)
    ensures BuildSetup(m1) == BuildSetup(m2) <==> m1 == m2
  {
    if BuildSetup(m1) == BuildSetup(m2) {
      assert SetupModel(BuildSetup(m1)) == SetupModel(BuildSetup(m2));
    }
  }

  /** The one-shot user turn wrapping one chunk of client audio (server.js:231-244). */
  function BuildAudioTurn(audio: string): (r: ClientContent)
    ensures TurnAudio(r) == Some(audio)
  {
    ClientContent([Turn("user", [Blob(ClientAudioMime, audio)])], true)
  }

  /** The audio of a client_content frame that is a single complete user turn
      with a single audio/webm blob; `None` for any other shape. */
  function TurnAudio(c: ClientContent): Option<string>
  {
    if c.turnComplete && |c.turns| == 1 && c.turns[0].role == "user"
       && |c.turns[0].parts| == 1 && c.turns[0].parts[0].mimeType == ClientAudioMime
    then Some(c.turns[0].parts[0].data)
    else None
  }

  /** `TurnAudio` recognises exactly the frames `BuildAudioTurn` makes. */
  lemma {:induction false} TurnAudioInverse(c: ClientContent, audio: string)
    ensures TurnAudio(c) == Some(audio) <==> c == BuildAudioTurn(audio)
  {
    if TurnAudio(c) == Some(audio) {
      var t := c.turns[0];
      assert t.parts == [Blob(ClientAudioMime, audio)];
      assert t == Turn("user", [Blob(ClientAudioMime, audio)]);
      assert c.turns == [t];
    }
  }
}
