/** The synthesis request descriptor and the validation both synthesis tools perform
    before touching the filesystem or the remote service. */
module Request {
  import opened Common

  /** Output audio formats the advanced tool accepts. */
  datatype Format = Mp3 | Wav | Pcm {
    /** The extension and wire name of the format. */
    function Name(): string {
      match this
      case Mp3 => "mp3"
      case Wav => "wav"
      case Pcm => "pcm"
    }
  }

  /** The three accepted mp3 bitrates: 64, 128 and 192 kbit/s. */
  datatype Bitrate = Kbps64 | Kbps128 | Kbps192

  datatype Latency = Normal | Balanced

  /** The caller-supplied knobs of the advanced tool, passed to the service as given:
      no cross-check between format and bitrate is made. */
  datatype Settings = Settings(
    format: Format,
    bitrate: Bitrate,
    chunkLength: int,
    normalize: bool,
    latency: Latency)

  /** Defaults of the advanced tool's optional parameters. */
  const DefaultSettings := Settings(Mp3, Kbps128, 200, true, Normal)

  /** What is handed to the remote service. The basic tool sets only the voice reference
      and the text (settings == None: the service's own defaults apply); the advanced
      tool also sends its settings. */
  datatype TtsRequest = TtsRequest(referenceId: Option<string>, text: string, settings: Option<Settings>)

  const EmptyTextMessage := "文本不能为空"
  const ChunkLengthMessage := "chunk_length 必须在 100 到 300 之间"
  const MinChunkLength := 100
  const MaxChunkLength := 300

  /** The rejection message of the basic tool, checked before anything else. */
  function CheckBasic(text: string): (rejection: Option<string>)
    ensures rejection == None <==> text != ""
    ensures rejection != None ==> rejection == Some(EmptyTextMessage)
  {
    if text == "" then Some(EmptyTextMessage) else None
  }

  /** The rejection message of the advanced tool: the empty text is reported first, then a
      chunk length outside the closed range [100, 300]. */
  function CheckAdvanced(text: string, chunkLength: int): (rejection: Option<string>)
    ensures rejection == Some(EmptyTextMessage) <==> text == ""
    ensures rejection == Some(ChunkLengthMessage) <==>
              text != "" && !(MinChunkLength <= chunkLength <= MaxChunkLength)
    ensures rejection == None <==> text != "" && MinChunkLength <= chunkLength <= MaxChunkLength
  {
    if text == "" then Some(EmptyTextMessage)
    else if chunkLength < MinChunkLength || chunkLength > MaxChunkLength then Some(ChunkLengthMessage)
    else None
  }

  /** The advanced check extends the basic one: exactly the same texts are rejected as
      empty, and an accepted advanced call is an accepted basic call. */
  lemma AdvancedRefinesBasic(text: string, chunkLength: int)
    ensures CheckBasic(text) == Some(EmptyTextMessage) <==> CheckAdvanced(text, chunkLength) == Some(EmptyTextMessage)
    ensures CheckAdvanced(text, chunkLength) == None ==> CheckBasic(text) == None
  {
  }

  /** The advanced tool's default chunk length lies in the accepted range, so a call that
      leaves every option at its default is rejected only for an empty text. */
  lemma DefaultSettingsAccepted(text: string)
    ensures CheckAdvanced(text, DefaultSettings.chunkLength) == CheckBasic(text)
  {
  }

  /** The range is closed: both bounds are accepted, their neighbours are not. */
  lemma ChunkLengthBounds(text: string)
    requires text != ""
    ensures CheckAdvanced(text, 100) == None && CheckAdvanced(text, 300) == None
    ensures CheckAdvanced(text, 99) == Some(ChunkLengthMessage)
    ensures CheckAdvanced(text, 301) == Some(ChunkLengthMessage)
  {
  }
}
