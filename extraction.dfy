/**
 * Choosing the text to hand to `JSON.parse` from the provider's reply.
 *
 * The service tries the pattern /```json\n([\s\S]*?)\n```/ first, then
 * /```\n([\s\S]*?)\n```/, and parses the whole reply when neither matches.
 * A JavaScript regular expression reports its leftmost match, and the lazy
 * group `*?` makes that match end at the nearest closing delimiter. The
 * model states those semantics declaratively (FirstLazyMatch) and computes
 * the match with two forward scans (FindFence), proved to agree.
 */
module Extraction {
  import opened Json
  import opened Strings

  const JsonFenceOpen: string := "```json\n"
  const PlainFenceOpen: string := "```\n"
  const FenceClose: string := "\n```"

  /** Where a match lies: the index of the opening delimiter and of the closing "\n```". */
  datatype Span = Span(open: nat, close: nat)

  /** The pattern `open([\s\S]*?)\n```` can match with its opening at `i` and its closing at `j`. */
  ghost predicate FenceAt(s: string, open: string, i: int, j: int)
  {
    OccursAt(s, open, i) && i + |open| <= j && OccursAt(s, FenceClose, j)
  }

  ghost predicate HasFence(s: string, open: string)
  {
    exists i, j :: FenceAt(s, open, i, j)
  }

  /**
   * The match `String.prototype.match` reports: the leftmost opening, and
   * for it the nearest closing (the lazy group).
   */
  ghost predicate FirstLazyMatch(s: string, open: string, i: int, j: int)
  {
    && FenceAt(s, open, i, j)
    && (forall i', j' :: FenceAt(s, open, i', j') ==> i <= i')
    && (forall j' :: FenceAt(s, open, i, j') ==> j <= j')
  }

  /**
   * The regular-expression match, computed: the first opening delimiter,
   * then the first closing delimiter after it. When the first opening has no
   * closing after it, no later opening has one either.
   */
  function FindFence(s: string, open: string): (r: Option<Span>)
    ensures r.Some? ==> FirstLazyMatch(s, open, r.value.open, r.value.close)
    ensures r.None? <==> !HasFence(s, open)
  {
    match IndexOfFrom(s, open, 0)
    case None => None
    case Some(i) =>
      match IndexOfFrom(s, FenceClose, i + |open|)
      case None => None
      case Some(j) => Some(Span(i, j))
  }

  /** The captured group `([\s\S]*?)`: what lies strictly between the delimiters. */
  function Inner(s: string, open: string, i: int, j: int): string
    requires FenceAt(s, open, i, j)
  {
    s[i + |open|..j]
  }

  /** Two leftmost-lazy matches of the same pattern are the same match. */
  lemma FirstLazyMatchUnique(s: string, open: string, i: int, j: int, i': int, j': int)
    requires FirstLazyMatch(s, open, i, j) && FirstLazyMatch(s, open, i', j')
    ensures i == i' && j == j'
  {
    assert i <= i' && i' <= i;
  }

  /** Whenever a fence of this kind occurs, the regular expression has a (unique) match. */
  lemma FirstLazyMatchExists(s: string, open: string)
    requires HasFence(s, open)
    ensures exists i, j :: FirstLazyMatch(s, open, i, j)
  {
    var sp := FindFence(s, open).value;
    assert FirstLazyMatch(s, open, sp.open, sp.close);
  }

  /**
   * The text handed to `JSON.parse`: the group of the first tagged fence;
   * failing that, of the first untagged fence; failing both, the whole reply.
   */
  function ExtractJsonText(content: string): (r: string)
    ensures forall i, j :: FirstLazyMatch(content, JsonFenceOpen, i, j) ==>
      r == Inner(content, JsonFenceOpen, i, j)
    ensures !HasFence(content, JsonFenceOpen) ==>
      forall i, j :: FirstLazyMatch(content, PlainFenceOpen, i, j) ==> r == Inner(content, PlainFenceOpen, i, j)
    ensures !HasFence(content, JsonFenceOpen) && !HasFence(content, PlainFenceOpen) ==> r == content
  {
    match FindFence(content, JsonFenceOpen)
    case Some(sp) => content[sp.open + |JsonFenceOpen|..sp.close]
    case None =>
      match FindFence(content, PlainFenceOpen)
      case Some(sp) => content[sp.open + |PlainFenceOpen|..sp.close]
      case None => content
  }

  /** Two closing delimiters never overlap: the line feed that starts one is not a backtick of the other. */
  lemma ClosingsDoNotOverlap(s: string, j: int, n: int)
    requires OccursAt(s, FenceClose, n) && j < n < j + |FenceClose|
    ensures !OccursAt(s, FenceClose, j)
  {
    assert s[n] == '\n';
    assert FenceClose[n - j] == '`';
    assert 0 <= j && j + |FenceClose| <= |s| ==> s[j..j + |FenceClose|][n - j] == s[n];
  }

  /**
   * A body without "\n```" in it, wrapped in a tagged fence, comes back out
   * exactly: the closing delimiter found is the one that was added.
   */
  lemma TaggedFenceRoundTrip(body: string)
    requires forall k :: !OccursAt(body, FenceClose, k)
    ensures ExtractJsonText(JsonFenceOpen + body + FenceClose) == body
  {
    var s := JsonFenceOpen + body + FenceClose;
    var n := |JsonFenceOpen| + |body|;
    assert s[..|JsonFenceOpen|] == JsonFenceOpen;
    assert s[n..] == FenceClose;
    assert FenceAt(s, JsonFenceOpen, 0, n);
    forall j | FenceAt(s, JsonFenceOpen, 0, j)
      ensures n <= j
    {
      if j < n {
        if j + |FenceClose| <= n {
          assert s[j..j + |FenceClose|] == body[j - |JsonFenceOpen|..j - |JsonFenceOpen| + |FenceClose|];
          assert OccursAt(body, FenceClose, j - |JsonFenceOpen|);
        } else {
          ClosingsDoNotOverlap(s, j, n);
        }
      }
    }
    assert FirstLazyMatch(s, JsonFenceOpen, 0, n);
    assert s[|JsonFenceOpen|..n] == body;
  }
}
