/** Newline-joined text: `Array.prototype.join('\n')` and the inverse split. */
module Lines {

  predicate NoNewline(s: string) {
    '\n' !in s
  }

  /** `lines.join('\n')`; the empty list joins to the empty string. */
  function Join(lines: seq<string>): string {
    if |lines| == 0 then ""
    else if |lines| == 1 then lines[0]
    else lines[0] + "\n" + Join(lines[1..])
  }

  /** The index of the first newline in `s` at or after `from`, or `|s|` when there is none. */
  function NewlineFrom(s: string, from: nat): (k: nat)
    requires from <= |s|
    ensures from <= k <= |s|
    ensures k < |s| ==> s[k] == '\n'
    ensures forall i :: from <= i < k ==> s[i] != '\n'
    decreases |s| - from
  {
    if from == |s| || s[from] == '\n' then from else NewlineFrom(s, from + 1)
  }

  /** `s.split('\n')`: the pieces between newlines, never an empty list. */
  function Split(s: string): (pieces: seq<string>)
    ensures |pieces| >= 1
    decreases |s|
  {
    var k := NewlineFrom(s, 0);
    if k == |s| then [s] else [s[..k]] + Split(s[k + 1..])
  }

  lemma {:induction false} JoinAppend(a: seq<string>, b: seq<string>)
    requires |a| >= 1 && |b| >= 1
    ensures Join(a + b) == Join(a) + "\n" + Join(b)
    decreases |a|
  {
    if |a| == 1 {
      assert a + b == [a[0]] + b;
      assert (a + b)[1..] == b;
    } else {
      JoinAppend(a[1..], b);
      assert (a + b)[1..] == a[1..] + b;
    }
  }

  lemma JoinCons(x: string, rest: seq<string>)
    requires |rest| >= 1
    ensures Join([x] + rest) == x + "\n" + Join(rest)
  {
    assert ([x] + rest)[1..] == rest;
  }

  /** A list that opens with an empty line joins to text that opens with a newline. */
  lemma JoinOpensWithNewline(lines: seq<string>)
    requires |lines| >= 2 && lines[0] == ""
    ensures |Join(lines)| > 0 && Join(lines)[0] == '\n'
  {
    assert Join(lines) == "" + "\n" + Join(lines[1..]);
  }

  /** A list that closes with an empty line joins to text that closes with a newline. */
  lemma JoinClosesWithNewline(lines: seq<string>)
    requires |lines| >= 2 && lines[|lines| - 1] == ""
    ensures |Join(lines)| > 0 && Join(lines)[|Join(lines)| - 1] == '\n'
  {
    var init := lines[..|lines| - 1];
    assert lines == init + [""];
    JoinAppend(init, [""]);
    assert Join(lines) == Join(init) + "\n" + "";
  }

  /** Cutting a list in two cuts its join at a newline. */
  lemma JoinSplitAt(lines: seq<string>, k: nat)
    requires 0 < k < |lines|
    ensures Join(lines) == Join(lines[..k]) + "\n" + Join(lines[k..])
  {
    assert lines == lines[..k] + lines[k..];
    JoinAppend(lines[..k], lines[k..]);
  }

  /** A line strictly inside a joined list stands between two newlines. */
  lemma JoinAround(lines: seq<string>, k: nat)
    requires 0 < k < |lines| - 1
    ensures Join(lines) == Join(lines[..k]) + "\n" + lines[k] + "\n" + Join(lines[k + 1..])
  {
    JoinSplitAt(lines, k);
    assert lines[k..] == [lines[k]] + lines[k + 1..];
    JoinCons(lines[k], lines[k + 1..]);
    Associate(Join(lines[..k]), "\n", lines[k], "\n", Join(lines[k + 1..]));
  }

  /** Joining three non-empty runs of lines puts one newline between consecutive runs. */
  lemma JoinThree(a: seq<string>, b: seq<string>, c: seq<string>)
    requires |a| >= 1 && |b| >= 1 && |c| >= 1
    ensures Join(a + b + c) == Join(a) + "\n" + Join(b) + "\n" + Join(c)
  {
    JoinAppend(a + b, c);
    JoinAppend(a, b);
  }

  lemma Associate(a: string, b: string, c: string, d: string, e: string)
    ensures a + b + (c + d + e) == a + b + c + d + e
  {
  }

  /** Splitting a line without newlines, a newline and more text cuts off that line. */
  lemma SplitCons(head: string, rest: string)
    requires NoNewline(head)
    ensures Split(head + "\n" + rest) == [head] + Split(rest)
  {
    var s := head + "\n" + rest;
    assert forall i :: 0 <= i < |head| ==> s[i] == head[i] && s[i] in head;
    assert s[|head|] == '\n';
    assert NewlineFrom(s, 0) == |head|;
    assert s[..|head|] == head;
    assert s[|head| + 1..] == rest;
  }

  /** Splitting joined lines gives the lines back, when none of them holds a newline. */
  lemma {:induction false} SplitJoin(lines: seq<string>)
    requires |lines| >= 1
    requires forall i :: 0 <= i < |lines| ==> NoNewline(lines[i])
    ensures Split(Join(lines)) == lines
    decreases |lines|
  {
    if |lines| == 1 {
      assert NewlineFrom(lines[0], 0) == |lines[0]|;
    } else {
      SplitCons(lines[0], Join(lines[1..]));
      SplitJoin(lines[1..]);
      assert lines == [lines[0]] + lines[1..];
    }
  }
}
