/**
 * The HTTP side of the service: the preset table, how a request's
 * `preset_id` picks a preset, the upload filter, and the decisions of the
 * `POST /analyze` route.
 *
 * The resize step and the analyzer are parameters of the route: `resize`
 * says whether re-encoding the image failed and with what message, and
 * `analyze` is what the analyzer returns for a preset.
 */
module Server {
  import opened Json
  import opened Strings
  import opened AiService

  const MinimalPreset: Preset := Preset(
    "minimal", "미니멀 기준",
    "과한 로고, 강한 색 대비, 잡다한 액세서리는 감점. 톤온톤 조화, 여백감, 절제된 디테일은 가산.")

  const StreetPreset: Preset := Preset(
    "street", "스트릿 기준",
    "포인트 컬러, 로고, 오버핏 허용. 실루엣의 힘, 스니커 매칭, 레이어링 완성도 강조.")

  const FormalPreset: Preset := Preset(
    "formal", "포멀 기준",
    "컬러는 절제, 핏의 정확성, 신발/벨트/가방의 격식 매칭 중시. 캐주얼 요소는 감점.")

  /** `PRESETS`: the constant preset table, keyed by preset id. */
  const Presets: map<string, Preset> :=
    map["minimal" := MinimalPreset, "street" := StreetPreset, "formal" := FormalPreset]

  /** The `preset_id` used when the request carries none. */
  const DefaultPresetId: string := "minimal"

  /** Every preset is filed under its own id, and the table holds exactly the three presets. */
  lemma PresetsKeyedById()
    ensures Presets.Keys == {"minimal", "street", "formal"}
    ensures forall id :: id in Presets ==> Presets[id].id == id
  {
  }

  /** No two presets share their rules, so each prompt is specific to its preset. */
  lemma PresetRulesDistinct()
    ensures MinimalPreset.rules != StreetPreset.rules
    ensures MinimalPreset.rules != FormalPreset.rules
    ensures StreetPreset.rules != FormalPreset.rules
    ensures forall a, b :: a in Presets && b in Presets && Presets[a].rules == Presets[b].rules ==> a == b
  {
    var m, s, f := MinimalPreset.rules, StreetPreset.rules, FormalPreset.rules;
    assert m[|m| - 2] == '산';
    assert s[|s| - 2] == '조';
    assert f[|f| - 2] == '점';
  }

  /**
   * `PRESETS[preset_id] || PRESETS.minimal`, with `preset_id` defaulting to
   * "minimal" when the form has no such field.
   */
  function ResolvePreset(presetId: Option<string>): (p: Preset)
    ensures presetId.None? ==> p == Presets[DefaultPresetId]
    ensures presetId.Some? && presetId.value in Presets ==> p == Presets[presetId.value]
    ensures presetId.Some? && presetId.value !in Presets ==> p == MinimalPreset
    ensures p in Presets.Values
  {
    var id := match presetId case Some(s) => s case None => DefaultPresetId;
    if id in Presets then Presets[id] else Presets["minimal"]
  }

  /**
   * An unknown id gets the minimal preset's prompt, word for word, and a
   * prompt unlike those of the other two presets.
   */
  lemma UnknownPresetPromptsAsMinimal(id: string)
    requires id !in Presets
    ensures CombinedPrompt(ResolvePreset(Some(id)).rules) == CombinedPrompt(MinimalPreset.rules)
    ensures CombinedPrompt(ResolvePreset(Some(id)).rules) != CombinedPrompt(StreetPreset.rules)
    ensures CombinedPrompt(ResolvePreset(Some(id)).rules) != CombinedPrompt(FormalPreset.rules)
  {
    PresetRulesDistinct();
    if CombinedPrompt(MinimalPreset.rules) == CombinedPrompt(StreetPreset.rules) {
      CombinedPromptInjective(MinimalPreset.rules, StreetPreset.rules);
    }
    if CombinedPrompt(MinimalPreset.rules) == CombinedPrompt(FormalPreset.rules) {
      CombinedPromptInjective(MinimalPreset.rules, FormalPreset.rules);
    }
  }

  const ImageMimePrefix: string := "image/"

  const OnlyImagesMessage: string := "이미지 파일만 업로드 가능합니다"

  /** The upload `fileFilter`: accept exactly the MIME types that start with "image/". */
  function FileFilter(mimetype: string): (r: Outcome<string>)
    ensures r.Pass? <==> ImageMimePrefix <= mimetype
    ensures r.Fail? ==> r.error == OnlyImagesMessage
  {
    if |mimetype| >= |ImageMimePrefix| && mimetype[..|ImageMimePrefix|] == ImageMimePrefix then Pass
    else Fail(OnlyImagesMessage)
  }

  /** The filter is case-sensitive and wants the slash: plain text and "IMAGE/PNG" are refused. */
  lemma FileFilterExamples()
    ensures FileFilter("image/jpeg").Pass?
    ensures FileFilter("text/plain") == Fail(OnlyImagesMessage)
    ensures FileFilter("IMAGE/PNG") == Fail(OnlyImagesMessage)
    ensures FileFilter("image") == Fail(OnlyImagesMessage)
  {
    assert "text/plain"[0] != ImageMimePrefix[0];
    assert "IMAGE/PNG"[0] != ImageMimePrefix[0];
  }

  /** The upload size limit: 10 MiB. */
  const MaxFileSize: nat := 10 * 1024 * 1024

  const NoFileMessage: string := "이미지 파일이 필요합니다"

  const FileTooLargeMessage: string := "File too large"

  const AnalysisFailedMessage: string := "분석 중 오류가 발생했습니다"

  /** The `image` part of a multipart request, as the upload middleware sees it. */
  datatype UploadedFile = UploadedFile(mimetype: string, size: nat)

  /** A `POST /analyze` request: the optional image part and the optional `preset_id` field. */
  datatype Request = Request(image: Option<UploadedFile>, presetId: Option<string>)

  /** Why the route answered 500; the body's `message` is the message of this cause. */
  datatype Cause = ResizeFailure(detail: string) | AnalysisFailure(error: AnalyzeError)

  datatype Response =
    | Analyzed(result: Json)                      // 200, the analysis result as the body
    | BadRequest(error: string)                   // 400 { error }
    | InternalError(error: string, cause: Cause)  // 500 { error, message }
    | UploadRejected(message: string)             // the upload middleware's error, passed to the framework

  /**
   * The status of each response. An upload error carries no status of its
   * own, so the framework's default error handler answers 500.
   */
  function Status(r: Response): (s: int)
    ensures s == 200 <==> r.Analyzed?
    ensures s == 400 <==> r.BadRequest?
    ensures s == 500 <==> r.InternalError? || r.UploadRejected?
  {
    match r
    case Analyzed(_) => 200
    case BadRequest(_) => 400
    case InternalError(_, _) => 500
    case UploadRejected(_) => 500
  }

  /** The response, and the preset the analyzer was called with (None: it was not called). */
  datatype Exchange = Exchange(response: Response, analyzedWith: Option<Preset>)

  /**
   * One `POST /analyze` exchange: the upload middleware (filter, size
   * limit), then the route: no file is a 400; a resize failure is a 500
   * before any analysis; otherwise the analyzer runs on the resolved preset
   * and its result or failure becomes a 200 or a 500.
   */
  function HandleAnalyze(req: Request, resize: Outcome<string>, analyze: Preset -> Result<Json, AnalyzeError>)
    : (x: Exchange)
    ensures req.image.None? ==> x == Exchange(BadRequest(NoFileMessage), None) && Status(x.response) == 400
    ensures req.image.Some? && !(ImageMimePrefix <= req.image.value.mimetype) ==>
      x == Exchange(UploadRejected(OnlyImagesMessage), None)
    ensures x.analyzedWith.Some? <==>
      && req.image.Some?
      && ImageMimePrefix <= req.image.value.mimetype
      && req.image.value.size <= MaxFileSize
      && resize.Pass?
    ensures req.image.Some? && ImageMimePrefix <= req.image.value.mimetype && req.image.value.size > MaxFileSize ==>
      x == Exchange(UploadRejected(FileTooLargeMessage), None)
    ensures req.image.Some? && ImageMimePrefix <= req.image.value.mimetype && req.image.value.size <= MaxFileSize && resize.Fail?
      ==> x == Exchange(InternalError(AnalysisFailedMessage, ResizeFailure(resize.error)), None)
    ensures x.analyzedWith.Some? && analyze(x.analyzedWith.value).Err? ==>
      x.response == InternalError(AnalysisFailedMessage, AnalysisFailure(analyze(x.analyzedWith.value).error))
    ensures x.analyzedWith.Some? ==> x.analyzedWith.value == ResolvePreset(req.presetId)
    ensures Status(x.response) == 200 <==> x.analyzedWith.Some? && analyze(x.analyzedWith.value).Ok?
    ensures Status(x.response) == 200 ==> x.response.result == analyze(x.analyzedWith.value).value
  {
    match req.image
    case Some(file) =>
      if FileFilter(file.mimetype).Fail? then Exchange(UploadRejected(FileFilter(file.mimetype).error), None)
      else if file.size > MaxFileSize then Exchange(UploadRejected(FileTooLargeMessage), None)
      else if resize.Fail? then Exchange(InternalError(AnalysisFailedMessage, ResizeFailure(resize.error)), None)
      else
        var preset := ResolvePreset(req.presetId);
        (match analyze(preset)
         case Ok(result) => Exchange(Analyzed(result), Some(preset))
         case Err(e) => Exchange(InternalError(AnalysisFailedMessage, AnalysisFailure(e)), Some(preset)))
    case None => Exchange(BadRequest(NoFileMessage), None)
  }

  /** A request with no file is answered the same whatever the analyzer would have done. */
  lemma NoFileNeverReachesAnalyzer(
    req: Request, resize: Outcome<string>,
    f: Preset -> Result<Json, AnalyzeError>, g: Preset -> Result<Json, AnalyzeError>)
    requires req.image.None?
    ensures HandleAnalyze(req, resize, f) == HandleAnalyze(req, resize, g)
  {
  }

  /**
   * With the analyzer in place, a 200 response always carries a well-formed
   * result, and the provider answered the prompt built from the resolved
   * preset's rules.
   */
  lemma ServedResultsAreWellFormed(
    req: Request, resize: Outcome<string>,
    provider: string -> Result<string, string>, parse: string -> Option<Json>)
    ensures
      var x := HandleAnalyze(req, resize, p => AnalyzeWithGemini(p, provider, parse));
      Status(x.response) == 200 ==>
        && Validation.WellFormed(x.response.result)
        && provider(CombinedPrompt(ResolvePreset(req.presetId).rules)).Ok?
  {
    var analyze := p => AnalyzeWithGemini(p, provider, parse);
    var x := HandleAnalyze(req, resize, analyze);
    if Status(x.response) == 200 {
      var preset := ResolvePreset(req.presetId);
      assert x.analyzedWith == Some(preset);
      assert analyze(preset).Ok?;
      assert analyze(preset) == AnalyzeWithGemini(preset, provider, parse);
    }
  }
}
