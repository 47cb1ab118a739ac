/** The four tools the server exposes: basic and advanced synthesis, the model-info query
    and the model catalogue. */
module Tools {
  import opened Common
  import opened Request
  import opened Paths
  import opened Storage
  import opened Remote
  import opened Writer

  /** The configuration read once at start-up: the API key and the default voice model,
      each `None` when the environment does not set it. */
  datatype Config = Config(apiKey: Option<string>, modelId: Option<string>)

  /** What the platform supplies: the temporary directory and Python's (per-process salted)
      string hash, about which nothing is assumed beyond being a function. */
  datatype Platform = Platform(tempDir: string, hash: string -> int)

  /** Destination of the basic tool: a given path is used as it is; otherwise the default
      mp3 file in the temporary directory. */
  function BasicPath(platform: Platform, text: string, outputPath: Option<string>): (p: string)
    ensures !Present(outputPath) ==> EndsWith(p, Dot(Mp3)) && Dirname(p) == ParentForm(platform.tempDir)
    ensures Present(outputPath) ==> p == outputPath.value
  {
    if Present(outputPath) then outputPath.value else DefaultPath(platform.tempDir, platform.hash(text), Mp3)
  }

  /** Destination of the advanced tool: a given path gets `.<format>` appended unless it
      already ends with it; otherwise the default file of that format. */
  function AdvancedPath(platform: Platform, text: string, outputPath: Option<string>, f: Format): (p: string)
    ensures EndsWith(p, Dot(f))
    ensures !Present(outputPath) ==> Dirname(p) == ParentForm(platform.tempDir)
  {
    if Present(outputPath) then WithExtension(outputPath.value, f) else DefaultPath(platform.tempDir, platform.hash(text), f)
  }

  /** Specification of text_to_speech: validation, then synthesis into the resolved path. */
  function BasicTool(w: World, cfg: Config, platform: Platform, respond: TtsRequest -> Response,
                     text: string, outputPath: Option<string>, faults: Faults): (World, Outcome)
  {
    match CheckBasic(text)
    case Some(rejection) => (w, Returned(rejection))
    case None => Synthesis(w, respond, BasicPath(platform, text, outputPath), TtsRequest(cfg.modelId, text, None), faults)
  }

  /** Specification of advanced_text_to_speech. */
  function AdvancedTool(w: World, cfg: Config, platform: Platform, respond: TtsRequest -> Response,
                        text: string, outputPath: Option<string>, settings: Settings, faults: Faults): (World, Outcome)
  {
    match CheckAdvanced(text, settings.chunkLength)
    case Some(rejection) => (w, Returned(rejection))
    case None =>
      Synthesis(w, respond, AdvancedPath(platform, text, outputPath, settings.format),
                TtsRequest(cfg.modelId, text, Some(settings)), faults)
  }

  /** text_to_speech(text, output_path). */
  method TextToSpeech(cfg: Config, platform: Platform, session: Session, fs: FileSystem,
                      text: string, outputPath: Option<string>, faults: Faults) returns (o: Outcome)
    modifies fs, session
    ensures (Snapshot(fs, session), o) ==
            BasicTool(old(Snapshot(fs, session)), cfg, platform, session.respond, text, outputPath, faults)
  {
    if text == "" {
      return Returned(EmptyTextMessage);
    }
    var path: string;
    if !Present(outputPath) {
      path := Join(platform.tempDir, DefaultName(platform.hash(text), Mp3));
    } else {
      path := outputPath.value;
    }
    o := Synthesize(session, fs, path, TtsRequest(cfg.modelId, text, None), faults);
  }

  /** advanced_text_to_speech(text, output_path, format, mp3_bitrate, chunk_length, normalize, latency). */
  method AdvancedTextToSpeech(cfg: Config, platform: Platform, session: Session, fs: FileSystem,
                              text: string, outputPath: Option<string>, settings: Settings, faults: Faults)
    returns (o: Outcome)
    modifies fs, session
    ensures (Snapshot(fs, session), o) ==
            AdvancedTool(old(Snapshot(fs, session)), cfg, platform, session.respond, text, outputPath, settings, faults)
  {
    if text == "" {
      return Returned(EmptyTextMessage);
    }
    if settings.chunkLength < 100 || settings.chunkLength > 300 {
      return Returned(ChunkLengthMessage);
    }
    var path: string;
    if !Present(outputPath) {
      path := Join(platform.tempDir, DefaultName(platform.hash(text), settings.format));
    } else {
      path := outputPath.value;
      if !EndsWith(path, "." + settings.format.Name()) {
        path := path + "." + settings.format.Name();
      }
      assert path == WithExtension(outputPath.value, settings.format);
    }
    o := Synthesize(session, fs, path, TtsRequest(cfg.modelId, text, Some(settings)), faults);
  }

  /** An empty text is answered with the fixed message and nothing else happens: no path,
      no directory, no request, no write; in the advanced tool whatever the chunk length. */
  lemma EmptyTextRejectedFirst(w: World, cfg: Config, platform: Platform, respond: TtsRequest -> Response,
                               outputPath: Option<string>, settings: Settings, faults: Faults)
    ensures BasicTool(w, cfg, platform, respond, "", outputPath, faults) == (w, Returned(EmptyTextMessage))
    ensures AdvancedTool(w, cfg, platform, respond, "", outputPath, settings, faults) == (w, Returned(EmptyTextMessage))
  {
  }

  /** A chunk length outside [100, 300] is answered with the range message and nothing else
      happens; inside the range validation lets the call through to synthesis. */
  lemma ChunkLengthGate(w: World, cfg: Config, platform: Platform, respond: TtsRequest -> Response,
                        text: string, outputPath: Option<string>, settings: Settings, faults: Faults)
    requires text != ""
    ensures !(100 <= settings.chunkLength <= 300) ==>
              AdvancedTool(w, cfg, platform, respond, text, outputPath, settings, faults) == (w, Returned(ChunkLengthMessage))
    ensures 100 <= settings.chunkLength <= 300 ==>
              AdvancedTool(w, cfg, platform, respond, text, outputPath, settings, faults) ==
              Synthesis(w, respond, AdvancedPath(platform, text, outputPath, settings.format),
                        TtsRequest(cfg.modelId, text, Some(settings)), faults)
  {
  }

  /** Every destination of the advanced tool ends with `.<format>` (restated from
      `AdvancedPath`'s contract); a given path is kept as its prefix, and resolving an
      already resolved path changes nothing. */
  lemma AdvancedPathShape(platform: Platform, text: string, outputPath: Option<string>, f: Format)
    ensures EndsWith(AdvancedPath(platform, text, outputPath, f), Dot(f))
    ensures Present(outputPath) ==>
              var r := AdvancedPath(platform, text, outputPath, f);
              |outputPath.value| <= |r| && r[..|outputPath.value|] == outputPath.value
    ensures var r := AdvancedPath(platform, text, outputPath, f);
              r != "" ==> AdvancedPath(platform, text, Some(r), f) == r
  {
  }

  /** Without a usable path (None or "") the destination depends only on the temporary
      directory, the hash of the text and the format, and lies directly in the temporary
      directory; the basic tool's default is the advanced tool's mp3 default, while a given
      path is used by the basic tool unchanged. */
  lemma DefaultDestination(platform: Platform, text: string, outputPath: Option<string>, f: Format)
    requires !Present(outputPath)
    ensures AdvancedPath(platform, text, outputPath, f) == Join(platform.tempDir, DefaultName(platform.hash(text), f))
    ensures Dirname(AdvancedPath(platform, text, outputPath, f)) == ParentForm(platform.tempDir)
    ensures BasicPath(platform, text, outputPath) == AdvancedPath(platform, text, None, Mp3)
    ensures BasicPath(platform, text, Some("")) == BasicPath(platform, text, None)
  {
  }

  /** The basic tool uses a given path as it is: a corollary restated from `BasicPath`'s
      contract, with no suffix rule. */
  lemma BasicExplicitPathUnchanged(platform: Platform, text: string, p: string)
    requires p != ""
    ensures BasicPath(platform, text, Some(p)) == p
  {
  }

  /** A basic call with a non-empty text that meets no failure sends exactly the request
      (model id, text), writes all chunks to the resolved path and reports that path. */
  lemma BasicSuccess(w: World, cfg: Config, platform: Platform, respond: TtsRequest -> Response,
                     text: string, outputPath: Option<string>)
    requires text != ""
    requires respond(TtsRequest(cfg.modelId, text, None)).failure == None
    ensures var path := BasicPath(platform, text, outputPath);
      var req := TtsRequest(cfg.modelId, text, None);
      var (w', o) := BasicTool(w, cfg, platform, respond, text, outputPath, NoFaults);
      o == Returned(SuccessPrefix + path) && path in w'.files &&
      w'.files[path] == Concat(respond(req).chunks) && w'.sent == w.sent + [req]
  {
    SuccessIffStreamCompletes(w, respond, BasicPath(platform, text, outputPath), TtsRequest(cfg.modelId, text, None), NoFaults);
  }

  /** A valid advanced call that meets no failure sends exactly the request built from the
      configuration and the caller's parameters, writes all chunks to the resolved path and
      reports that path. */
  lemma AdvancedSuccess(w: World, cfg: Config, platform: Platform, respond: TtsRequest -> Response,
                        text: string, outputPath: Option<string>, settings: Settings)
    requires text != "" && 100 <= settings.chunkLength <= 300
    requires respond(TtsRequest(cfg.modelId, text, Some(settings))).failure == None
    ensures var path := AdvancedPath(platform, text, outputPath, settings.format);
      var req := TtsRequest(cfg.modelId, text, Some(settings));
      var (w', o) := AdvancedTool(w, cfg, platform, respond, text, outputPath, settings, NoFaults);
      o == Returned(SuccessPrefix + path) && path in w'.files &&
      w'.files[path] == Concat(respond(req).chunks) && w'.sent == w.sent + [req]
  {
    var path := AdvancedPath(platform, text, outputPath, settings.format);
    var req := TtsRequest(cfg.modelId, text, Some(settings));
    SuccessIffStreamCompletes(w, respond, path, req, NoFaults);
  }

  /** A repeated valid advanced call with the same arguments resolves the same destination.
      If neither call meets a local failure and the second answer ends normally, the second
      call replaces the file by the second answer's chunks, even when they differ from the
      first answer's, and reports that path. */
  lemma RepeatedAdvancedCall(w: World, cfg: Config, platform: Platform,
                             respond: TtsRequest -> Response, respond2: TtsRequest -> Response,
                             text: string, outputPath: Option<string>, settings: Settings)
    requires text != "" && 100 <= settings.chunkLength <= 300
    requires respond2(TtsRequest(cfg.modelId, text, Some(settings))).failure == None
    ensures var path := AdvancedPath(platform, text, outputPath, settings.format);
      var req := TtsRequest(cfg.modelId, text, Some(settings));
      var (w1, o1) := AdvancedTool(w, cfg, platform, respond, text, outputPath, settings, NoFaults);
      var (w2, o2) := AdvancedTool(w1, cfg, platform, respond2, text, outputPath, settings, NoFaults);
      w2.files == w1.files[path := Concat(respond2(req).chunks)] && w2.dirs == w1.dirs &&
      o2 == Returned(SuccessPrefix + path)
  {
    RepeatOverwrites(w, respond, respond2, AdvancedPath(platform, text, outputPath, settings.format),
                     TtsRequest(cfg.modelId, text, Some(settings)));
  }

  /** Result of get_model_info. */
  datatype ModelInfo = ModelInfo(modelId: Option<string>, apiKeyPrefix: Option<string>)

  function Min(a: int, b: int): int {
    if a <= b then a else b
  }

  /** `key[:8] + "..."`. */
  function MaskKey(key: string): (masked: string)
    ensures |masked| == Min(8, |key|) + 3
    ensures masked[..|masked| - 3] == key[..Min(8, |key|)]
    ensures masked[|masked| - 3..] == "..."
  {
    key[..Min(8, |key|)] + "..."
  }

  /** get_model_info: the model id unchanged, and the key masked down to its first eight
      characters, or `None` when no key (or the empty key) is configured. */
  function GetModelInfo(cfg: Config): (info: ModelInfo)
    ensures info.modelId == cfg.modelId
    ensures info.apiKeyPrefix == None <==> !Present(cfg.apiKey)
    ensures info.apiKeyPrefix != None ==> info.apiKeyPrefix == Some(MaskKey(cfg.apiKey.value))
  {
    ModelInfo(cfg.modelId, if Present(cfg.apiKey) then Some(MaskKey(cfg.apiKey.value)) else None)
  }

  /** At most eight characters of the key are shown, and they are its first ones; a key
      longer than eight characters is never shown in full. A key of at most eight
      characters, however, is shown in full, followed by "...". */
  lemma MaskedKeyDisclosure(key: string)
    ensures var shown := MaskKey(key)[..|MaskKey(key)| - 3];
      |shown| <= 8 && shown <= key && (|key| > 8 ==> shown < key)
    ensures |key| <= 8 ==> MaskKey(key) == key + "..."
  {
  }

  lemma MaskKeyExample()
    ensures GetModelInfo(Config(Some("sk-1234567890"), Some("m"))) == ModelInfo(Some("m"), Some("sk-12345..."))
  {
    assert "sk-1234567890"[..8] == "sk-12345";
    assert MaskKey("sk-1234567890") == "sk-12345...";
  }

  /** One entry of get_available_models. */
  datatype ModelDescriptor = ModelDescriptor(name: string, id: string, description: string)

  /** get_available_models: the fixed catalogue of three models with distinct ids. */
  function AvailableModels(): (models: seq<ModelDescriptor>)
    ensures |models| == 3
    ensures models[0].id == "speech-1.5" && models[1].id == "speech-1.6" && models[2].id == "agent-x0"
    ensures models[0].name == "Fish Speech 1.5" && models[1].name == "Fish Speech 1.6" && models[2].name == "Agent X0"
    ensures forall i, j :: 0 <= i < j < |models| ==> models[i].id != models[j].id
  {
    [ModelDescriptor("Fish Speech 1.5", "speech-1.5", "基础文字转语音模型"),
     ModelDescriptor("Fish Speech 1.6", "speech-1.6", "高级文字转语音模型"),
     ModelDescriptor("Agent X0", "agent-x0", "特殊场景文字转语音模型")]
  }
}
