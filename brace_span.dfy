/** The JSON candidate both the extractor and the planner cut out of a model
    response: the first match of the regular expression `\{[^}]+\}`. */
module BraceSpan {
  import opened Wrappers

  /** `s[p..q]` inclusive matches `\{[^}]+\}`: an opening brace, at least one
      character that is not `}`, then `}`. */
  predicate SpanAt(s: string, p: int, q: int) {
    && 0 <= p && p + 2 <= q < |s|
    && s[p] == '{' && s[q] == '}'
    && forall k :: p < k < q ==> s[k] != '}'
  }

  /** `s.find('}', from)`, as an option. */
  function CloseFrom(s: string, from: nat): (r: Option<nat>)
    ensures r.Some? ==> from <= r.value < |s| && s[r.value] == '}'
    ensures r.Some? ==> forall k :: from <= k < r.value ==> s[k] != '}'
    ensures r.None? ==> forall k :: from <= k < |s| ==> s[k] != '}'
    decreases |s| - from
  {
    if from >= |s| then None
    else if s[from] == '}' then Some(from)
    else CloseFrom(s, from + 1)
  }

  /** The leftmost match starting at or after `p`: at an opening brace the
      greedy `[^}]+` runs up to the next `}`, so the match exists there
      exactly when that `}` is not the very next character. */
  function ScanFrom(s: string, p: nat): (r: Option<(nat, nat)>)
    ensures r.Some? ==> p <= r.value.0 && SpanAt(s, r.value.0, r.value.1)
    ensures r.Some? ==> forall a, b :: p <= a < r.value.0 ==> !SpanAt(s, a, b)
    ensures r.None? ==> forall a, b :: p <= a ==> !SpanAt(s, a, b)
    decreases |s| - p
  {
    if p >= |s| then None
    else if s[p] == '{' then
      match CloseFrom(s, p + 1)
      case Some(q) => if q >= p + 2 then Some((p, q)) else ScanFrom(s, p + 1)
      case None => ScanFrom(s, p + 1)
    else ScanFrom(s, p + 1)
  }

  /** `re.search(r'\{[^}]+\}', s)`: the bounds of the match, if any. */
  function FirstSpan(s: string): (r: Option<(nat, nat)>)
    ensures r.Some? ==> SpanAt(s, r.value.0, r.value.1)
    ensures r.Some? ==> forall a, b :: SpanAt(s, a, b) ==> r.value.0 <= a
    ensures r.None? <==> forall a, b :: !SpanAt(s, a, b)
  {
    ScanFrom(s, 0)
  }

  /** `json_match.group()`, or `None` when nothing matched. */
  function Candidate(s: string): (r: Option<string>)
    ensures r.Some? ==> |r.value| >= 3 && r.value[0] == '{' && r.value[|r.value| - 1] == '}'
  {
    match FirstSpan(s)
    case None => None
    case Some((p, q)) => Some(s[p..q + 1])
  }

  /** A match ends at the first `}` after its opening brace. */
  lemma SpanEndUnique(s: string, p: int, q: int, q': int)
    requires SpanAt(s, p, q) && SpanAt(s, p, q')
    ensures q == q'
  {
  }

  function CountChar(s: string, c: char): nat
    decreases |s|
  {
    if s == [] then 0 else CountChar(s[..|s| - 1], c) + (if s[|s| - 1] == c then 1 else 0)
  }

  lemma {:induction false} CountCharNone(s: string, c: char)
    requires forall k :: 0 <= k < |s| ==> s[k] != c
    ensures CountChar(s, c) == 0
    decreases |s|
  {
    if s != [] {
      CountCharNone(s[..|s| - 1], c);
    }
  }

  /** The candidate holds exactly one `}`: its last character. */
  lemma CandidateHasOneClose(s: string)
    requires Candidate(s).Some?
    ensures CountChar(Candidate(s).value, '}') == 1
  {
    var (p, q) := FirstSpan(s).value;
    var t := s[p..q + 1];
    CountCharNone(t[..|t| - 1], '}');
  }

  /** An empty pair of braces is skipped; the search goes on to the next brace. */
  lemma SkipsEmptyBraces()
    ensures Candidate("{}{a}") == Some("{a}")
  {
    assert CloseFrom("{}{a}", 1) == Some(1);
    assert CloseFrom("{}{a}", 3) == Some(4);
    assert ScanFrom("{}{a}", 2) == Some((2, 4));
    assert "{}{a}"[2..5] == "{a}";
  }

  /** A nested object is cut at its first closing brace. */
  lemma CutsAtFirstClose()
    ensures Candidate("{a{b}c}") == Some("{a{b}")
  {
    assert CloseFrom("{a{b}c}", 1) == Some(4);
    assert "{a{b}c}"[0..5] == "{a{b}";
  }
}
