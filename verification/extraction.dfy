/**
  The fragment search `content.match(/\[\s*{[\s\S]*}\s*\]/)` as an explicit search:
  the match starts at the leftmost `[` that white space and a `{` follow, and, because
  `[\s\S]*` is greedy, ends at the last `}` that white space and a `]` follow.
 */
module Extraction {
  import opened Wrappers

  /** `\s` of a JavaScript regular expression. */
  predicate IsSpace(c: char) {
    var k := c as int;
    (9 <= k <= 13) || k == 0x20 || k == 0xA0 || k == 0x1680 || (0x2000 <= k <= 0x200A)
    || k == 0x2028 || k == 0x2029 || k == 0x202F || k == 0x205F || k == 0x3000 || k == 0xFEFF
  }

  /** The first index at or after `from` whose character is not white space, or `|s|`. */
  function SkipSpace(s: string, from: nat): (p: nat)
    requires from <= |s|
    ensures from <= p <= |s|
    ensures forall i :: from <= i < p ==> IsSpace(s[i])
    ensures p < |s| ==> !IsSpace(s[p])
    decreases |s| - from
  {
    if from == |s| || !IsSpace(s[from]) then from else SkipSpace(s, from + 1)
  }

  /** `\[\s*{` matches at index `i`. */
  predicate OpensAt(s: string, i: nat) {
    i < |s| && s[i] == '[' && SkipSpace(s, i + 1) < |s| && s[SkipSpace(s, i + 1)] == '{'
  }

  /** The index of the `{` of an opening at `i`. */
  function Brace(s: string, i: nat): nat
    requires OpensAt(s, i)
  {
    SkipSpace(s, i + 1)
  }

  /** `}\s*\]` matches at index `k`. */
  predicate ClosesAt(s: string, k: nat) {
    k < |s| && s[k] == '}' && SkipSpace(s, k + 1) < |s| && s[SkipSpace(s, k + 1)] == ']'
  }

  /** The index just past the `]` of a closing at `k`. */
  function CloseEnd(s: string, k: nat): nat
    requires ClosesAt(s, k)
  {
    SkipSpace(s, k + 1) + 1
  }

  /** The leftmost opening at or after `from`. */
  function FirstOpen(s: string, from: nat): (r: Option<nat>)
    requires from <= |s|
    ensures r.Some? ==> from <= r.value < |s| && OpensAt(s, r.value)
    ensures r.Some? ==> forall j :: from <= j < r.value ==> !OpensAt(s, j)
    ensures r.None? ==> forall j :: from <= j < |s| ==> !OpensAt(s, j)
    decreases |s| - from
  {
    if from == |s| then None
    else if OpensAt(s, from) then Some(from)
    else FirstOpen(s, from + 1)
  }

  /** The rightmost closing below `below`. */
  function LastClose(s: string, below: nat): (r: Option<nat>)
    requires below <= |s|
    ensures r.Some? ==> r.value < below && ClosesAt(s, r.value)
    ensures r.Some? ==> forall k :: r.value < k < below ==> !ClosesAt(s, k)
    ensures r.None? ==> forall k :: 0 <= k < below ==> !ClosesAt(s, k)
    decreases below
  {
    if below == 0 then None
    else if ClosesAt(s, below - 1) then Some(below - 1)
    else LastClose(s, below - 1)
  }

  /** Where the match lies: `[start, end)`, with its final `}` at `close`. */
  datatype Span = Span(start: nat, close: nat, end: nat)

  /** The regular-expression match, or `None` when the text has no match at all. */
  function Match(s: string): (r: Option<Span>)
    ensures r.Some? ==> var m := r.value;
      && OpensAt(s, m.start)
      && (forall j :: 0 <= j < m.start ==> !OpensAt(s, j))
      && ClosesAt(s, m.close) && Brace(s, m.start) < m.close
      && (forall k :: m.close < k < |s| ==> !ClosesAt(s, k))
      && m.end == CloseEnd(s, m.close) && m.start < m.end <= |s|
    ensures r.None? ==> forall i: nat, k: nat :: OpensAt(s, i) && ClosesAt(s, k) ==> k <= Brace(s, i)
  {
    match FirstOpen(s, 0)
    case None => None
    case Some(i) =>
      match LastClose(s, |s|)
      case None => None
      case Some(k) =>
        if Brace(s, i) < k then Some(Span(i, k, CloseEnd(s, k)))
        else
          assert forall i': nat, k': nat :: OpensAt(s, i') && ClosesAt(s, k') ==> k' <= Brace(s, i') by {
            forall i': nat, k': nat | OpensAt(s, i') && ClosesAt(s, k') ensures k' <= Brace(s, i') {
              assert i <= i' && k' <= k;
              if i < i' {
                assert !IsSpace(s[i']);
              }
            }
          }
          None
  }

  /** `jsonMatch[0]`: the matched text, which begins with `[` and ends with `]`. */
  function Fragment(s: string): (r: Option<string>)
    ensures r.Some? ==> |r.value| >= 4 && r.value[0] == '[' && r.value[|r.value| - 1] == ']'
  {
    match Match(s)
    case None => None
    case Some(m) => Some(s[m.start..m.end])
  }

  /** Skipping white space inside a prefix does not see what follows the prefix. */
  lemma {:induction false} SkipSpaceInPrefix(a: string, t: string, from: nat)
    requires from <= |a| && SkipSpace(a, from) < |a|
    ensures SkipSpace(a + t, from) == SkipSpace(a, from)
    decreases |a| - from
  {
    assert (a + t)[from] == a[from];
    if IsSpace(a[from]) {
      SkipSpaceInPrefix(a, t, from + 1);
    }
  }

  /** Skipping white space inside a suffix is the same skip, shifted. */
  lemma {:induction false} SkipSpaceInSuffix(t: string, b: string, from: nat)
    requires from <= |b|
    ensures SkipSpace(t + b, |t| + from) == |t| + SkipSpace(b, from)
    decreases |b| - from
  {
    if from < |b| {
      assert (t + b)[|t| + from] == b[from];
      if IsSpace(b[from]) {
        SkipSpaceInSuffix(t, b, from + 1);
      }
    }
  }

  /** A closing inside a suffix is a closing of the suffix, shifted. */
  lemma ClosesInSuffix(t: string, b: string, j: nat)
    requires j < |b|
    ensures ClosesAt(t + b, |t| + j) <==> ClosesAt(b, j)
    ensures ClosesAt(b, j) ==> CloseEnd(t + b, |t| + j) == |t| + CloseEnd(b, j)
  {
    SkipSpaceInSuffix(t, b, j + 1);
    assert (t + b)[|t| + j] == b[j];
    var q := SkipSpace(b, j + 1);
    if q < |b| {
      assert (t + b)[|t| + q] == b[q];
    }
  }

  /** An opening at the start of a text still opens it when text is appended. */
  lemma OpensBeforeAppend(a: string, u: string)
    requires OpensAt(a, 0)
    ensures OpensAt(a + u, 0) && Brace(a + u, 0) == Brace(a, 0)
  {
    SkipSpaceInPrefix(a, u, 1);
    assert (a + u)[0] == a[0] && (a + u)[Brace(a, 0)] == a[Brace(a, 0)];
  }

  /** The last closing of a suffix is the last closing of the whole text, shifted. */
  lemma LastClosingOfSuffix(t: string, b: string, j: nat)
    requires ClosesAt(b, j) && forall k :: j < k < |b| ==> !ClosesAt(b, k)
    ensures ClosesAt(t + b, |t| + j) && CloseEnd(t + b, |t| + j) == |t| + CloseEnd(b, j)
    ensures forall k :: |t| + j < k < |t + b| ==> !ClosesAt(t + b, k)
  {
    ClosesInSuffix(t, b, j);
    forall k | |t| + j < k < |t + b| ensures !ClosesAt(t + b, k) {
      ClosesInSuffix(t, b, k - |t|);
    }
  }

  /** An opening at the start and a later last closing decide the match. */
  lemma MatchFromStart(s: string, close: nat)
    requires OpensAt(s, 0) && ClosesAt(s, close) && Brace(s, 0) < close
    requires forall k :: close < k < |s| ==> !ClosesAt(s, k)
    ensures Match(s) == Some(Span(0, close, CloseEnd(s, close)))
  {
    var m := Match(s).value;
    assert m.start == 0;
    assert m.close == close;
  }

  /** A text that is exactly one fragment opens at its start and closes at its end. */
  lemma WholeFragment(a: string)
    requires Fragment(a) == Some(a)
    ensures Match(a).Some? && Match(a).value.start == 0 && Match(a).value.end == |a|
    ensures OpensAt(a, 0) && Brace(a, 0) < |a|
    ensures var close := Match(a).value.close;
      && ClosesAt(a, close) && CloseEnd(a, close) == |a|
      && forall k :: close < k < |a| ==> !ClosesAt(a, k)
  {
    var m := Match(a).value;
    assert |a[m.start..m.end]| == |a|;
  }

  /**
    Two replies that are each exactly one fragment, with any text between them, are
    captured as a single span: the greedy match runs from the first one's opening to the
    second one's closing.
   */
  lemma TwoArraysMakeOneFragment(a: string, p: string, b: string)
    requires Fragment(a) == Some(a) && Fragment(b) == Some(b)
    ensures Fragment(a + p + b) == Some(a + p + b)
  {
    var s, t := a + p + b, a + p;
    WholeFragment(a);
    WholeFragment(b);
    var close := Match(b).value.close;
    assert s == a + (p + b) == t + b;
    OpensBeforeAppend(a, p + b);
    LastClosingOfSuffix(t, b, close);
    assert Brace(s, 0) < |t| + close && CloseEnd(s, |t| + close) == |s|;
    MatchFromStart(s, |t| + close);
    assert s[0..|s|] == s;
  }
}
