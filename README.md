# fitPo analysis service: a Dafny model of its response contract

fitPo accepts a photo and an evaluation preset (`minimal`, `street` or
`formal`). It sends the resized photo to a hosted vision model with a scoring
prompt and returns a structured fashion critique: a total score, six category
scores, deductions, exactly three fixes, style tags, a colour palette and a
one-line review. This project models the deterministic layer around the
provider call. That layer is pure, so it is written as functions and lemmas.

- `Json` (json.dfy): the values `JSON.parse` produces, `Option`/`Result`/`Outcome`,
  and the JavaScript `in` operator and `.length` read on those values.
- `Strings` (strings.dfy): substring occurrence, the forward scan for the first occurrence, and containment.
- `Extraction` (extraction.dfy): which text of the provider's reply is parsed.
  The regular expressions `/```json\n([\s\S]*?)\n```/` and `/```\n([\s\S]*?)\n```/` are
  stated as "leftmost opening, nearest closing" (`FirstLazyMatch`). That statement is
  proved equal to a two-scan search (`FindFence`).
- `Validation` (validation.dfy): `validateResult`. It checks seven required fields, then
  six required categories, then `fixes.length === 3`, in that order, and stops at the first
  failure. It passes exactly on `WellFormed` values.
- `AiService` (ai_service.dfy): the prompt template, the parse step (one error, no
  fallback), validation, and the whole `analyzeWithGemini` pipeline with the provider
  and the parser as parameters.
- `Server` (server.dfy): the `PRESETS` table, preset resolution with its default and
  fallback, the upload `fileFilter`, and the decisions of `POST /analyze`.

`JSON.parse` is the parameter `parse: string -> Option<Json>`. It is left uninterpreted:
None stands for a thrown `SyntaxError`. The provider call is the parameter
`provider: string -> Result<string, string>`. It receives the combined prompt and returns
the reply text or its error. In the route, the resize step is an `Outcome<string>` and the
analyzer is a function from preset to result.

Three behaviours of the code a reader might not expect:

- A non-image upload is not answered by the route's 400. The upload middleware hands the
  filter's error to the framework, whose default handler answers with status 500, and the
  route never runs (`Server.HandleAnalyze`, `UploadRejected`).
- When the parsed reply is not an object, or `categoryScores` is not an object, `in` throws a
  TypeError. When `fixes` is `null`, reading its `length` throws a TypeError. These errors
  differ from the "missing field" messages (`NotAnObject`, `NullFixes`).
- `fixes.length === 3` also holds for a three-character string and for an object whose
  `length` member is 3 (`Validation.LengthIsThree`).

## Model

| member | source | states |
|---|---|---|
| Strings.IndexOfFrom | server/aiService.js:97-98 | returns an index at or after `from` where the pattern occurs, and no occurrence at or after `from` lies before it; None exactly when there is no occurrence |
| Extraction.FindFence | server/aiService.js:97-98 | finds a match exactly when some fence of that kind occurs; the match found is the leftmost opening with its nearest closing (regex semantics with a lazy group) |
| Extraction.FirstLazyMatchUnique | server/aiService.js:97-98 | the leftmost-lazy match of a fence pattern is unique |
| Extraction.FirstLazyMatchExists | server/aiService.js:97-98 | whenever a fence of a kind occurs anywhere, the regular expression has a match |
| Extraction.ExtractJsonText | server/aiService.js:97-104 | the parsed text is the group of the first tagged fence when one exists; only when none exists is it the group of the first untagged fence; with neither, it is the whole reply |
| Extraction.ClosingsDoNotOverlap | server/aiService.js:97 | two closing delimiters "\n```" never overlap |
| Extraction.TaggedFenceRoundTrip | server/aiService.js:97-101 | a body without "\n```" wrapped as "```json\n" + body + "\n```" is extracted exactly |
| Json.HasKey | server/aiService.js:135-151 | `key in v` on an object is true exactly when `key` is one of its keys; on an array it is false for the names the validator asks about |
| Json.ReadLength | server/aiService.js:157 | `fixes.length` throws exactly on null, gives an array's size, and is undefined for an object without a `length` member |
| Validation.FirstMissing | server/aiService.js:134-138 | the loop stops at the first key the value lacks, and every key before it is present; no stop means every key is present |
| Validation.Validate | server/aiService.js:123-160 | passes iff all seven fields, all six categories and `fixes.length === 3` hold; otherwise it fails with the first violation in the fixed order (non-object, first missing field, non-object `categoryScores`, first missing category, null `fixes`, wrong count) |
| Validation.FixCountTwoOrFourRejected | server/aiService.js:156-159 | a `fixes` array of 2 or 4 entries fails with the fix-count error even when every field and category is present |
| Validation.MissingColorHarmonyRejected | server/aiService.js:141-154 | `categoryScores` without `color_harmony` (with `fit_silhouette` present) fails with the missing-category error for `color_harmony` |
| Validation.FirstMissingSameKeys | server/aiService.js:134-154 | the check loops depend only on which keys are present, not on the values |
| Validation.ValuesOfOtherFieldsIgnored | server/aiService.js:123-160 | replacing the value of any field other than `categoryScores` and `fixes` never changes the verdict, so the total score, tags and colours are neither range-checked nor normalised |
| Validation.CategoryScoresIgnored | server/aiService.js:141-154 | replacing the value of any entry of `categoryScores` never changes the verdict, so category scores outside 0 to 20 pass |
| AiService.CombinedPrompt | server/aiService.js:15-66 | the combined prompt is the template head, then the preset's rules verbatim at offset `PromptHead`, then the rest of the system prompt, "\n\n" and the user prompt |
| AiService.CombinedPromptInjective | server/aiService.js:34 | different rules give different prompts |
| AiService.ParseReply | server/aiService.js:93-108 | when a tagged fence matches, only its group is parsed; when none matches but an untagged fence does, only that group is parsed; when neither matches, the whole reply is parsed; every failure is the single "unparsable" error |
| AiService.AnalyzeReply | server/aiService.js:93-113 | succeeds iff the parsed value is well-formed; then it returns the parsed value unchanged; otherwise it returns the parse error or the validation error |
| AiService.AnalyzeWithGemini | server/aiService.js:80-117 | only ever returns well-formed results; the provider is asked with the combined prompt of the preset's rules; its error is passed on unchanged |
| AiService.Message | server/aiService.js:107-158 | the provider's error keeps its own message; the missing-field and missing-category messages carry the missing name after a fixed prefix (and before a fixed suffix); only the engine's TypeErrors have no modelled message |
| AiService.MessagesIdentifyShapeErrors | server/aiService.js:107-158 | two response-shape errors with the same message are the same error, including which field or category is missing |
| AiService.NoFallbackAfterFence | server/aiService.js:97-108 | if the tagged fence's group does not parse, the result is the unparsable error; the whole reply is not tried |
| AiService.PlainReplyReturnedUnchanged | server/aiService.js:102-113 | a well-formed reply without fences is returned as parsed |
| AiService.FencedReplyReturnedUnchanged | server/aiService.js:97-113 | a well-formed body without "\n```", wrapped in a tagged fence, is returned as parsed from the body |
| Server.PresetsKeyedById | server/index.js:34-50 | the table holds exactly `minimal`, `street` and `formal`, each under its own id |
| Server.PresetRulesDistinct | server/index.js:34-50 | the three rules strings are pairwise distinct |
| Server.ResolvePreset | server/index.js:66-77 | without `preset_id` the `minimal` preset is used; a known id gives its own preset; any other id gives `minimal` |
| Server.UnknownPresetPromptsAsMinimal | server/index.js:77 | an unknown id yields exactly the `minimal` prompt, which differs from the `street` and `formal` prompts |
| Server.FileFilter | server/index.js:24-30 | accepts iff the MIME type starts with "image/"; otherwise it rejects with the only-images message |
| Server.FileFilterExamples | server/index.js:25 | `image/jpeg` is accepted; `text/plain`, `IMAGE/PNG` and `image` are rejected |
| Server.HandleAnalyze | server/index.js:19-103 | no file gives 400 and no analysis; a non-image gives the upload error and no analysis; the analyzer runs iff the file passed the filter and size limit and the resize succeeded, and then it runs with the resolved preset; the status is 200 iff that analysis succeeded, and the body is then its result; an oversized file gives the "File too large" upload error; a failed resize gives the 500 error answer with the resize failure as its cause, before any analysis; a failed analysis gives the 500 error answer with the analyzer's error as its cause |
| Server.Status | server/index.js:63-102 | status 200 exactly for an analysis result, 400 exactly for the missing-file answer, 500 for the route's error answer and for an upload error handled by the framework |
| Server.NoFileNeverReachesAnalyzer | server/index.js:62-64 | a request without a file gets the same answer whatever the analyzer would do |
| Server.ServedResultsAreWellFormed | server/index.js:77-86 | with the real analyzer, a 200 response carries a well-formed result, and the provider answered the combined prompt of the resolved preset's rules |

## Left out

- The provider SDK, model name and sampling parameters (server/aiService.js:1-4, 68-91) are left out. The provider is a function parameter from prompt to reply, and the image that travels with the prompt is not modelled.
- `JSON.parse` is a parameter. Its grammar is not modelled.
- Reading and base64-encoding the image file (server/aiService.js:11-12), multer's disk storage, and the resize and JPEG re-encode (server/index.js:69-74) are I/O. The resize appears only as its outcome.
- Temporary-file cleanup with `fs.unlink` (server/index.js:82-84, 90-97) is I/O and is not modelled. In the source the error path removes only the original upload and leaves `_resized.jpg` behind. A failing `unlink` after a successful analysis turns the 200 into a 500. The model claims neither "all files are removed" nor anything about cleanup.
- `/health`, its clock-based timestamp, CORS, JSON body parsing and `app.listen` (server/index.js:11-16, 52-55, 106-108) are framework wiring.
- Logging with `console.error` has no effect on results.
- Server.ResolvePreset: an id that names an inherited object member (`constructor`, `toString`, `__proto__` and so on) resolves in the source to that member. That member is truthy, so the prompt would carry the rules text "undefined". The model treats such ids as unknown and resolves them to `minimal`.
- Json.HasKey: for arrays it answers false. That is exact only for non-index names other than `length`, which covers every name the validator asks about. Inherited object members are likewise ignored; none of the checked names is one.
- Json.ReadLength: a string's length is counted in characters, where JavaScript counts UTF-16 code units. The same holds for the positions in the fence search.
- AiService.Message: the text of the engine's TypeErrors is not modelled (None). The 500 body's `message` for those errors is therefore not modelled either.
- The 500 answer to an upload error comes from the framework's default error handler. Its HTML body is not modelled, and neither are multer's field-name checks (a file under another field name, several files) or a `preset_id` field sent more than once.
- AiService.CombinedPrompt: that a preset's prompt contains no other preset's rules string is not proved. The proof needs character-by-character reasoning over the roughly 1,000-character template, which is beyond what the verifier can do here. What is proved: each prompt holds its own rules verbatim, and different rules give different prompts.
