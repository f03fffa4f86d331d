/**
 * `analyzeWithGemini`: build the prompt for a preset, hand it to the
 * provider, pick the JSON text out of the reply, parse it, validate it and
 * return it unchanged.
 *
 * The provider call and `JSON.parse` are parameters: `provider` maps the
 * combined prompt to the reply text or to the error it throws, `parse` maps
 * text to the parsed value or to None when it throws. The image that goes
 * with the prompt is not modelled.
 */
module AiService {
  import opened Json
  import opened Strings
  import opened Extraction
  import opened Validation

  /** A named bundle of extra scoring instructions. */
  datatype Preset = Preset(id: string, name: string, rules: string)

  /**
   * The system prompt template up to the preset's rules: the rubric (score
   * ranges, the six categories, the list sizes) and the label before the
   * rules. Verbatim, as the template literal has it.
   */
  const PromptHead: string := @"
당신은 냉정하고 솔직한 패션 평가 전문가입니다.
과한 칭찬은 금지되며, 모호한 표현 없이 단호하게 평가합니다.

평가 규칙:
- 총점: 0~100점 (냉정하게 매기되, 평균은 60~75점)
- categoryScores: 각 항목별 0~20점
  * fit_silhouette: 핏과 실루엣
  * color_harmony: 컬러 조화
  * composition_layering: 구성과 레이어링
  * tpo_appropriateness: TPO 적합성
  * details_points: 디테일과 포인트
  * overall_cohesion: 전체 완성도
- deductions: 최대 5개의 감점 사유 (짧고 단호하게)
- fixes: 정확히 3개의 즉시 개선 방법 (구체적으로)
- styleTags: 3~6개의 스타일 태그
- paletteHex: 3~6개의 HEX 컬러 코드 (#RRGGBB)
- oneLineReview: 한 줄 총평 (냉정한 톤)

프리셋별 추가 규칙: "

  /** The rest of the system prompt: the instruction to return JSON only. */
  const SystemPromptTail: string := @"

**출력은 반드시 아래 JSON 형식만 반환하고, 다른 설명은 절대 포함하지 마세요.**
"

  /** `userPrompt`: the request and the one-shot JSON exemplar. */
  const UserPrompt: string := @"
위 사진 속 패션 코디를 평가해주세요.

반환 형식 (JSON만):
{
  ""totalScore"": 78,
  ""categoryScores"": {
    ""fit_silhouette"": 16,
    ""color_harmony"": 14,
    ""composition_layering"": 12,
    ""tpo_appropriateness"": 14,
    ""details_points"": 10,
    ""overall_cohesion"": 12
  },
  ""deductions"": [
    ""상의 기장이 애매해서 비율이 끊긴다"",
    ""신발 톤이 바지와 연결이 약하다""
  ],
  ""fixes"": [
    ""상의는 2~3cm 더 짧게(또는 바지를 하이웨이스트로)"",
    ""신발을 상의와 같은 톤(화이트/오프화이트)으로 맞추기"",
    ""가방/시계 중 하나만 남기고 포인트를 하나로""
  ],
  ""styleTags"": [""minimal"", ""city"", ""clean"", ""monotone""],
  ""paletteHex"": [""#111111"", ""#F2F2F2"", ""#8A8A8A""],
  ""oneLineReview"": ""깔끔한데 비율이 끊겨서 완성도가 떨어진다.""
}
"

  /** Everything in the combined prompt after the preset rules. */
  const PromptTail: string := SystemPromptTail + "\n\n" + UserPrompt

  /** Whatever surrounds it, a string embedded between two others occurs right after the first. */
  lemma EmbeddedOccurs(head: string, s: string, tail: string)
    ensures OccursAt(head + s + tail, s, |head|)
  {
    assert (head + s + tail)[|head|..|head| + |s|] == s;
  }

  lemma Regroup(a: string, b: string, c: string, d: string, e: string)
    ensures a + b + c + d + e == a + b + (c + d + e)
  {
  }

  /** Embedding between fixed strings is injective. */
  lemma {:induction false} EmbeddingInjective(head: string, a: string, b: string, tail: string)
    requires head + a + tail == head + b + tail
    ensures a == b
  {
    var n := |head|;
    assert |a| == |b|;
    assert a == (head + a + tail)[n..n + |a|];
    assert b == (head + b + tail)[n..n + |b|];
  }

  /** `systemPrompt`: the rubric, the preset's rules, the JSON-only instruction. */
  function SystemPrompt(rules: string): string
  {
    PromptHead + rules + SystemPromptTail
  }

  /** `systemPrompt + '\n\n' + userPrompt`, the text sent to the provider; the preset's rules stand in it verbatim. */
  function CombinedPrompt(rules: string): (r: string)
    ensures r == PromptHead + rules + PromptTail
    ensures OccursAt(r, rules, |PromptHead|)
    ensures Contains(r, rules)
  {
    Regroup(PromptHead, rules, SystemPromptTail, "\n\n", UserPrompt);
    EmbeddedOccurs(PromptHead, rules, PromptTail);
    SystemPrompt(rules) + "\n\n" + UserPrompt
  }

  /** Different rules give different prompts: the template never hides the rules it was given. */
  lemma CombinedPromptInjective(a: string, b: string)
    requires CombinedPrompt(a) == CombinedPrompt(b)
    ensures a == b
  {
    EmbeddingInjective(PromptHead, a, b, PromptTail);
  }

  /** What `analyzeWithGemini` throws. */
  datatype AnalyzeError =
    | ProviderFailure(detail: string)   // the provider call's own error, passed on unchanged
    | Unparsable                        // "AI 응답을 파싱할 수 없습니다"
    | Invalid(cause: ValidationError)   // thrown by `validateResult`

  /** `r` is what parsing `text` gives: its value, or the single parse error. */
  ghost predicate ParsedFrom(r: Result<Json, AnalyzeError>, parse: string -> Option<Json>, text: string)
  {
    && (r.Ok? <==> parse(text).Some?)
    && (r.Ok? ==> parse(text) == Some(r.value))
    && (r.Err? ==> r.error == Unparsable)
  }

  /**
   * The inner `try`: parse the first tagged fence's group if there is one,
   * else the first untagged fence's group, else the whole reply. Once a
   * fence matches, a parse failure is final: the whole reply is not tried.
   */
  function ParseReply(content: string, parse: string -> Option<Json>): (r: Result<Json, AnalyzeError>)
    ensures forall i, j :: FirstLazyMatch(content, JsonFenceOpen, i, j) ==>
      ParsedFrom(r, parse, Inner(content, JsonFenceOpen, i, j))
    ensures !HasFence(content, JsonFenceOpen) ==> forall i, j :: FirstLazyMatch(content, PlainFenceOpen, i, j) ==>
      ParsedFrom(r, parse, Inner(content, PlainFenceOpen, i, j))
    ensures !HasFence(content, JsonFenceOpen) && !HasFence(content, PlainFenceOpen) ==>
      ParsedFrom(r, parse, content)
  {
    match parse(ExtractJsonText(content))
    case None => Err(Unparsable)
    case Some(v) => Ok(v)
  }

  /** Lines 93-113 of the analyzer: parse the reply, validate, return the parsed object as it is. */
  function AnalyzeReply(content: string, parse: string -> Option<Json>): (r: Result<Json, AnalyzeError>)
    ensures r.Ok? <==> ParseReply(content, parse).Ok? && WellFormed(ParseReply(content, parse).value)
    ensures r.Ok? ==> r == ParseReply(content, parse)
    ensures ParseReply(content, parse).Err? ==> r == Err(Unparsable)
    ensures ParseReply(content, parse).Ok? && Validate(ParseReply(content, parse).value).Fail? ==>
      r == Err(Invalid(Validate(ParseReply(content, parse).value).error))
  {
    match ParseReply(content, parse)
    case Err(e) => Err(e)
    case Ok(v) =>
      match Validate(v)
      case Fail(e) => Err(Invalid(e))
      case Pass => Ok(v)
  }

  /**
   * `analyzeWithGemini(imagePath, preset)`: the provider sees the combined
   * prompt for the preset's rules; its failure is passed on unchanged; a
   * result is only ever returned when it is well-formed.
   */
  function AnalyzeWithGemini(preset: Preset, provider: string -> Result<string, string>, parse: string -> Option<Json>)
    : (r: Result<Json, AnalyzeError>)
    ensures r.Ok? ==> WellFormed(r.value)
    ensures provider(CombinedPrompt(preset.rules)).Err? ==>
      r == Err(ProviderFailure(provider(CombinedPrompt(preset.rules)).error))
    ensures provider(CombinedPrompt(preset.rules)).Ok? ==>
      r == AnalyzeReply(provider(CombinedPrompt(preset.rules)).value, parse)
  {
    match provider(CombinedPrompt(preset.rules))
    case Err(e) => Err(ProviderFailure(e))
    case Ok(content) => AnalyzeReply(content, parse)
  }

  /**
   * The `message` of each error. The TypeErrors' text is the JavaScript
   * engine's and is not modelled (None).
   */
  function Message(e: AnalyzeError): (m: Option<string>)
    ensures m.None? <==> e.Invalid? && (e.cause.NotAnObject? || e.cause.NullFixes?)
    ensures e.ProviderFailure? ==> m == Some(e.detail)
    ensures e.Invalid? && e.cause.MissingField? ==>
      m.Some? && MissingFieldPrefix <= m.value && m.value[|MissingFieldPrefix|..] == e.cause.field
    ensures e.Invalid? && e.cause.MissingCategory? ==>
      m.Some? && MissingCategoryPrefix <= m.value && |m.value| >= |MissingCategoryPrefix| + |MissingCategorySuffix|
      && m.value[|MissingCategoryPrefix|..|m.value| - |MissingCategorySuffix|] == e.cause.category
  {
    match e
    case ProviderFailure(d) => Some(d)
    case Unparsable => Some(UnparsableMessage)
    case Invalid(MissingField(f)) => Some(MissingFieldPrefix + f)
    case Invalid(MissingCategory(c)) => Some(MissingCategoryPrefix + c + MissingCategorySuffix)
    case Invalid(WrongFixCount) => Some(WrongFixCountMessage)
    case Invalid(_) => None
  }

  const UnparsableMessage: string := "AI 응답을 파싱할 수 없습니다"
  const MissingFieldPrefix: string := "필수 필드 누락: "
  const MissingCategoryPrefix: string := "categoryScores에 "
  const MissingCategorySuffix: string := " 누락"
  const WrongFixCountMessage: string := "fixes는 정확히 3개여야 합니다"

  /**
   * Response-shape errors are told apart by their message alone: two such
   * errors with the same message are the same error.
   */
  lemma MessagesIdentifyShapeErrors(e1: AnalyzeError, e2: AnalyzeError)
    requires !e1.ProviderFailure? && !e2.ProviderFailure?
    requires Message(e1).Some? && Message(e1) == Message(e2)
    ensures e1 == e2
  {
    var m := Message(e1).value;
    assert m[0] == FirstLetter(e1) && m[0] == FirstLetter(e2);
    match e1
    case Invalid(MissingField(f)) =>
      assert f == m[10..] == e2.cause.field;
    case Invalid(MissingCategory(c)) =>
      assert c == m[16..|m| - 3] == e2.cause.category;
    case _ =>
  }

  /** The first letter of each response-shape message: they all differ. */
  function FirstLetter(e: AnalyzeError): (c: char)
    requires !e.ProviderFailure? && Message(e).Some?
    ensures |Message(e).value| > 0 && Message(e).value[0] == c
  {
    match e
    case Unparsable => 'A'
    case Invalid(MissingField(_)) => '필'
    case Invalid(MissingCategory(_)) => 'c'
    case Invalid(WrongFixCount) => 'f'
  }

  /**
   * Once the tagged fence matches, its group alone is parsed: if that fails
   * the reply is unparsable, even when the whole reply would have parsed.
   */
  lemma NoFallbackAfterFence(content: string, parse: string -> Option<Json>, i: int, j: int)
    requires FirstLazyMatch(content, JsonFenceOpen, i, j)
    requires parse(Inner(content, JsonFenceOpen, i, j)).None?
    ensures AnalyzeReply(content, parse) == Err(Unparsable)
  {
  }

  /** A bare, well-formed JSON reply without fences comes back unchanged. */
  lemma PlainReplyReturnedUnchanged(content: string, parse: string -> Option<Json>, v: Json)
    requires !HasFence(content, JsonFenceOpen) && !HasFence(content, PlainFenceOpen)
    requires parse(content) == Some(v) && WellFormed(v)
    ensures AnalyzeReply(content, parse) == Ok(v)
  {
  }

  /** The same reply wrapped in a tagged fence gives the same result. */
  lemma FencedReplyReturnedUnchanged(body: string, parse: string -> Option<Json>, v: Json)
    requires forall k :: !OccursAt(body, FenceClose, k)
    requires parse(body) == Some(v) && WellFormed(v)
    ensures AnalyzeReply(JsonFenceOpen + body + FenceClose, parse) == Ok(v)
  {
    TaggedFenceRoundTrip(body);
  }
}
