/**
 * `validateResult`: the structural check applied to the parsed reply.
 *
 * The check asks, in this order: is each of the seven result fields a key
 * of the object; is each of the six category names a key of
 * `categoryScores`; is `fixes.length` exactly 3. It throws at the first
 * question answered "no" and otherwise lets the object through untouched;
 * it never looks at scores, tags or colours.
 */
module Validation {
  import opened Json

  const RequiredFields: seq<string> :=
    ["totalScore", "categoryScores", "deductions", "fixes", "styleTags", "paletteHex", "oneLineReview"]

  const RequiredCategories: seq<string> :=
    ["fit_silhouette", "color_harmony", "composition_layering", "tpo_appropriateness", "details_points", "overall_cohesion"]

  /** What `validateResult` throws. */
  datatype ValidationError =
    | NotAnObject(key: string)         // TypeError: `key in v` where `v` is not an object
    | MissingField(field: string)      // "필수 필드 누락: <field>"
    | MissingCategory(category: string) // "categoryScores에 <category> 누락"
    | NullFixes                        // TypeError: reading `length` of null
    | WrongFixCount                    // "fixes는 정확히 3개여야 합니다"

  /** Every name in `keys` is a key of `v`. */
  ghost predicate HasAll(v: Json, keys: seq<string>)
  {
    InOperandOk(v) && forall k :: 0 <= k < |keys| ==> HasKey(v, keys[k])
  }

  /** `keys[k]` is the first name in `keys` that `v` lacks. */
  ghost predicate FirstAbsent(v: Json, keys: seq<string>, k: int)
  {
    && InOperandOk(v)
    && 0 <= k < |keys|
    && !HasKey(v, keys[k])
    && forall i :: 0 <= i < k ==> HasKey(v, keys[i])
  }

  /** `v.length === 3`, read the JavaScript way (arrays, strings, objects with a `length` member). */
  ghost predicate LengthIsThree(v: Json)
  {
    || (v.JArray? && |v.elems| == 3)
    || (v.JString? && |v.s| == 3)
    || (v.JObject? && "length" in v.fields && v.fields["length"] == JNumber(3.0))
  }

  /** `result.categoryScores`, for a result that has every field. */
  function Scores(v: Json): Json
    requires HasAll(v, RequiredFields)
  {
    assert HasKey(v, RequiredFields[1]);
    v.fields["categoryScores"]
  }

  /** `result.fixes`, for a result that has every field. */
  function Fixes(v: Json): Json
    requires HasAll(v, RequiredFields)
  {
    assert HasKey(v, RequiredFields[3]);
    v.fields["fixes"]
  }

  /** The invariant of a valid analysis result: all fields, all categories, exactly three fixes. */
  ghost predicate WellFormed(v: Json)
  {
    && HasAll(v, RequiredFields)
    && HasAll(Scores(v), RequiredCategories)
    && LengthIsThree(Fixes(v))
  }

  /** The `for … of` loop over `keys`, from position `from`: where the first `in` test fails, if anywhere. */
  function FirstMissing(keys: seq<string>, v: Json, from: nat): (r: Option<nat>)
    requires InOperandOk(v)
    ensures r.Some? ==> from <= r.value < |keys| && !HasKey(v, keys[r.value])
    ensures r.Some? ==> forall k :: from <= k < r.value ==> HasKey(v, keys[k])
    ensures r.None? ==> forall k :: from <= k < |keys| ==> HasKey(v, keys[k])
    decreases |keys| - from
  {
    if from >= |keys| then None
    else if !HasKey(v, keys[from]) then Some(from)
    else FirstMissing(keys, v, from + 1)
  }

  /**
   * `validateResult(v)`. Each case of the order of checks is stated on its
   * own: a non-object result, the first missing field, a non-object
   * `categoryScores`, the first missing category, a null `fixes`, a wrong
   * fix count; and the check passes exactly on well-formed results.
   */
  function Validate(v: Json): (r: Outcome<ValidationError>)
    ensures r.Pass? <==> WellFormed(v)
    ensures !InOperandOk(v) ==> r == Fail(NotAnObject(RequiredFields[0]))
    ensures forall k :: FirstAbsent(v, RequiredFields, k) ==> r == Fail(MissingField(RequiredFields[k]))
    ensures HasAll(v, RequiredFields) && !InOperandOk(Scores(v)) ==>
      r == Fail(NotAnObject(RequiredCategories[0]))
    ensures forall k :: HasAll(v, RequiredFields) && FirstAbsent(Scores(v), RequiredCategories, k) ==>
      r == Fail(MissingCategory(RequiredCategories[k]))
    ensures HasAll(v, RequiredFields) && HasAll(Scores(v), RequiredCategories) ==>
      && (r == Fail(NullFixes) <==> Fixes(v).JNull?)
      && (r == Fail(WrongFixCount) <==> !Fixes(v).JNull? && !LengthIsThree(Fixes(v)))
  {
    if !InOperandOk(v) then Fail(NotAnObject(RequiredFields[0]))
    else
      match FirstMissing(RequiredFields, v, 0)
      case Some(k) => Fail(MissingField(RequiredFields[k]))
      case None =>
        var scores := Scores(v);
        if !InOperandOk(scores) then Fail(NotAnObject(RequiredCategories[0]))
        else
          match FirstMissing(RequiredCategories, scores, 0)
          case Some(k) => Fail(MissingCategory(RequiredCategories[k]))
          case None =>
            match ReadLength(Fixes(v))
            case None => Fail(NullFixes)
            case Some(len) => if len == Defined(JNumber(3.0)) then Pass else Fail(WrongFixCount)
  }

  /** A `fixes` array of two or four entries is refused even when every field and category is there. */
  lemma FixCountTwoOrFourRejected(v: Json)
    requires HasAll(v, RequiredFields) && HasAll(Scores(v), RequiredCategories)
    requires Fixes(v).JArray? && (|Fixes(v).elems| == 2 || |Fixes(v).elems| == 4)
    ensures Validate(v) == Fail(WrongFixCount)
  {
  }

  /** A result whose `categoryScores` lacks `color_harmony` (but has `fit_silhouette`) is refused for that category. */
  lemma MissingColorHarmonyRejected(v: Json)
    requires HasAll(v, RequiredFields) && Scores(v).JObject?
    requires "fit_silhouette" in Scores(v).fields && "color_harmony" !in Scores(v).fields
    ensures Validate(v) == Fail(MissingCategory("color_harmony"))
  {
    assert FirstAbsent(Scores(v), RequiredCategories, 1);
  }

  /** Two values with the same answers to `in` for `keys` stop the loop at the same place. */
  lemma {:induction false} FirstMissingSameKeys(keys: seq<string>, v: Json, w: Json, from: nat)
    requires InOperandOk(v) && InOperandOk(w)
    requires forall k :: 0 <= k < |keys| ==> HasKey(v, keys[k]) == HasKey(w, keys[k])
    ensures FirstMissing(keys, v, from) == FirstMissing(keys, w, from)
    decreases |keys| - from
  {
    if from < |keys| {
      FirstMissingSameKeys(keys, v, w, from + 1);
    }
  }

  /**
   * Validation looks at no value except `categoryScores` and `fixes`: any
   * other field, a score, a tag list, a colour, may be replaced by anything
   * without changing the verdict. Out-of-range scores and malformed colours
   * pass through.
   */
  lemma ValuesOfOtherFieldsIgnored(m: map<string, Json>, key: string, x: Json)
    requires key in m && key != "categoryScores" && key != "fixes"
    ensures Validate(JObject(m[key := x])) == Validate(JObject(m))
  {
    var v, w := JObject(m), JObject(m[key := x]);
    assert w.fields.Keys == v.fields.Keys;
    FirstMissingSameKeys(RequiredFields, v, w, 0);
    if FirstMissing(RequiredFields, v, 0).None? {
      assert Scores(v) == Scores(w) && Fixes(v) == Fixes(w);
    }
  }

  /**
   * Nor does it look at the category scores themselves: replacing the value
   * of any entry of `categoryScores` by anything leaves the verdict as it was,
   * so a score outside the rubric's 0 to 20 passes.
   */
  lemma CategoryScoresIgnored(m: map<string, Json>, s: map<string, Json>, c: string, x: Json)
    requires "categoryScores" in m && m["categoryScores"] == JObject(s) && c in s
    ensures Validate(JObject(m["categoryScores" := JObject(s[c := x])])) == Validate(JObject(m))
  {
    var v, w := JObject(m), JObject(m["categoryScores" := JObject(s[c := x])]);
    assert w.fields.Keys == v.fields.Keys;
    FirstMissingSameKeys(RequiredFields, v, w, 0);
    if FirstMissing(RequiredFields, v, 0).None? {
      assert s[c := x].Keys == s.Keys;
      FirstMissingSameKeys(RequiredCategories, Scores(v), Scores(w), 0);
      assert Fixes(v) == Fixes(w);
    }
  }
}
