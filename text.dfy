/** The few Python `str` operations the harness uses to inspect console output and to
    build argument strings, stated over `seq<char>`. */
module Text {

  /** `sub` occurs in `s` starting at index `i`. */
  predicate OccursAt(s: string, sub: string, i: int) {
    0 <= i && i + |sub| <= |s| && s[i..i + |sub|] == sub
  }

  /** Lowest occurrence of `sub` at or after `i`, or -1. */
  function FindFrom(s: string, sub: string, i: nat): (r: int)
    ensures r == -1 || (i <= r && OccursAt(s, sub, r))
    ensures r == -1 ==> forall j :: i <= j ==> !OccursAt(s, sub, j)
    ensures r >= 0 ==> forall j :: i <= j < r ==> !OccursAt(s, sub, j)
    decreases |s| + 1 - i
  {
    if i + |sub| > |s| then -1
    else if s[i..i + |sub|] == sub then i
    else FindFrom(s, sub, i + 1)
  }

  /** Python `s.find(sub)`: the lowest index of `sub` in `s`, or -1. */
  function Find(s: string, sub: string): (r: int)
    ensures r == -1 <==> forall j :: !OccursAt(s, sub, j)
    ensures r >= 0 ==> OccursAt(s, sub, r) && forall j :: j < r ==> !OccursAt(s, sub, j)
  {
    FindFrom(s, sub, 0)
  }

  /** Highest occurrence of `sub` at or below `i`, or -1. */
  function RFindBelow(s: string, sub: string, i: int): (r: int)
    requires i >= -1
    ensures r == -1 || (r <= i && OccursAt(s, sub, r))
    ensures r == -1 ==> forall j :: j <= i ==> !OccursAt(s, sub, j)
    ensures r >= 0 ==> forall j :: r < j <= i ==> !OccursAt(s, sub, j)
    decreases i + 1
  {
    if i < 0 then -1
    else if OccursAt(s, sub, i) then i
    else RFindBelow(s, sub, i - 1)
  }

  /** Python `s.rfind(sub)`: the highest index of `sub` in `s`, or -1. */
  function RFind(s: string, sub: string): (r: int)
    ensures r == -1 <==> forall j :: !OccursAt(s, sub, j)
    ensures r >= 0 ==> OccursAt(s, sub, r) && forall j :: r < j ==> !OccursAt(s, sub, j)
  {
    if |sub| > |s| then -1 else RFindBelow(s, sub, |s| - |sub|)
  }

  /** Python `sub in s`. */
  predicate Contains(s: string, sub: string) {
    Find(s, sub) >= 0
  }

  lemma ContainsAt(s: string, sub: string, i: int)
    requires OccursAt(s, sub, i)
    ensures Contains(s, sub)
  {
  }

  predicate StartsWith(s: string, prefix: string) {
    |prefix| <= |s| && s[..|prefix|] == prefix
  }

  predicate EndsWith(s: string, suffix: string) {
    |suffix| <= |s| && s[|s| - |suffix|..] == suffix
  }

  /** A concatenation starts with its first part and ends with its second. */
  lemma ConcatAffixes(a: string, b: string)
    ensures StartsWith(a + b, a) && EndsWith(a + b, b)
  {
    assert (a + b)[..|a|] == a;
    assert (a + b)[|a + b| - |b|..] == b;
  }

  /** The middle of three concatenated strings occurs right after the first. */
  lemma InfixOf(a: string, b: string, c: string)
    ensures OccursAt(a + b + c, b, |a|)
  {
    assert (a + b + c)[|a|..|a| + |b|] == b;
  }

  /** `os.path.basename`, and the task-name extraction `task[task.rfind('/') + 1:]`:
      everything after the last '/'. */
  function Basename(p: string): (r: string)
    ensures '/' !in r
    ensures EndsWith(p, r)
    ensures '/' !in p ==> r == p
  {
    var i := RFind(p, "/");
    assert forall j :: i < j < |p| ==> p[j] != '/' by {
      forall j | i < j < |p| ensures p[j] != '/' {
        if p[j] == '/' { assert OccursAt(p, "/", j); }
      }
    }
    assert i >= 0 ==> p[i] == '/' by {
      if i >= 0 { assert p[i..i + 1] == "/"; }
    }
    p[i + 1..]
  }

  /** The base name of `dir + "/" + name` is `name` when `name` has no '/'. */
  lemma BasenameChild(dir: string, name: string)
    requires '/' !in name
    ensures Basename(dir + "/" + name) == name
  {
    var p := dir + "/" + name;
    var i := RFind(p, "/");
    assert OccursAt(p, "/", |dir|) by { assert p[|dir|..|dir| + 1] == "/"; }
    forall j | j > |dir|
      ensures !OccursAt(p, "/", j)
    {
      if j + 1 <= |p| {
        assert p[j..j + 1] == [p[j]];
        assert p[j] == name[j - |dir| - 1];
      }
    }
    assert i == |dir|;
    assert p[i + 1..] == name;
  }

  /** `sub` is not in `s` when no place it could start holds its first character. */
  lemma NotContainedByHead(s: string, sub: string)
    requires |sub| > 0 && forall j :: 0 <= j && j + |sub| <= |s| ==> s[j] != sub[0]
    ensures !Contains(s, sub)
  {
    forall j | 0 <= j && j + |sub| <= |s|
      ensures !OccursAt(s, sub, j)
    {
      assert s[j..j + |sub|][0] == s[j];
    }
  }

  /** The head and the tail of a piece of `s` both occur in `s`. */
  lemma EndsOfInfix(s: string, t: string, q: int, head: string, tail: string)
    requires OccursAt(s, t, q) && StartsWith(t, head) && EndsWith(t, tail)
    ensures Contains(s, head) && Contains(s, tail)
  {
    assert OccursAt(t, head, 0);
    ContainsInfix(s, t, q, head);
    assert OccursAt(t, tail, |t| - |tail|);
    ContainsInfix(s, t, q, tail);
  }

  /** An occurrence of `sub` in a piece of `s` is an occurrence in `s`. */
  lemma ContainsInfix(s: string, t: string, q: int, sub: string)
    requires OccursAt(s, t, q) && Contains(t, sub)
    ensures Contains(s, sub)
  {
    var i := Find(t, sub);
    assert OccursAt(t, sub, i);
    assert forall k :: 0 <= k < |sub| ==> s[q + i + k] == t[i + k] == sub[k];
    assert s[q + i..q + i + |sub|] == sub;
    ContainsAt(s, sub, q + i);
  }

  /** `line` is line `k` of `s.splitlines()`. */
  predicate IsLine(s: string, k: nat, line: string) {
    k < |SplitLines(s)| && line == SplitLines(s)[k]
  }

  /** Every line of `s.splitlines()` occurs in `s`. */
  lemma {:induction false} SplitLinesOccur(s: string, k: nat, line: string) returns (q: nat)
    requires IsLine(s, k, line)
    ensures OccursAt(s, line, q)
    decreases |s|
  {
    if k == 0 {
      q := 0;
      FirstLineOccurs(s);
    } else {
      var next, rest := LineAfterFirst(s, k, line);
      var q' := SplitLinesOccur(rest, k - 1, line);
      q := q' + next;
      OccursInSuffix(s, next, line, q');
    }
  }

  /** Line `k > 0` of `s` is line `k - 1` of what follows the first break. */
  lemma LineAfterFirst(s: string, k: nat, line: string) returns (next: nat, rest: string)
    requires 0 < k && IsLine(s, k, line)
    ensures 0 < next <= |s| && rest == s[next..]
    ensures IsLine(rest, k - 1, line)
  {
    next := SplitLinesTail(s);
    rest := s[next..];
    assert SplitLines(s)[1..][k - 1] == SplitLines(s)[k];
  }

  /** Past its first line, `s.splitlines()` is the split of what follows the first break. */
  lemma SplitLinesTail(s: string) returns (next: nat)
    requires |SplitLines(s)| > 1
    ensures 0 < next <= |s| && SplitLines(s)[1..] == SplitLines(s[next..])
  {
    var i := FirstBreak(s);
    next := NextLine(s, i);
  }

  /** The first line of `s.splitlines()` is a prefix of `s`. */
  lemma FirstLineOccurs(s: string)
    requires |SplitLines(s)| > 0
    ensures OccursAt(s, SplitLines(s)[0], 0)
  {
    var i := FirstBreak(s);
    if i < 0 {
      assert SplitLines(s) == [s];
      assert s[0..|s|] == s;
    } else {
      assert SplitLines(s)[0] == s[..i];
      assert s[0..|s[..i]|] == s[..i];
    }
  }

  /** An occurrence in a suffix of `s` is an occurrence in `s`, shifted. */
  lemma OccursInSuffix(s: string, d: nat, t: string, q: nat)
    requires d <= |s| && OccursAt(s[d..], t, q)
    ensures OccursAt(s, t, q + d)
  {
    assert s[q + d..q + d + |t|] == s[d..][q..q + |t|];
  }

  /** Whitespace as Python's argument-less `str.split()` sees it (ASCII part). */
  predicate IsSpace(ch: char) {
    ch == ' ' || ch == '\t' || ch == '\n' || ch == '\r' || ch == '\U{0B}' || ch == '\U{0C}'
  }

  /** End of the run of non-whitespace characters starting at `i`. */
  function WordEnd(s: string, i: nat): (e: nat)
    requires i <= |s|
    ensures i <= e <= |s|
    ensures forall k :: i <= k < e ==> !IsSpace(s[k])
    ensures e < |s| ==> IsSpace(s[e])
    decreases |s| - i
  {
    if i == |s| || IsSpace(s[i]) then i else WordEnd(s, i + 1)
  }

  /** Python `s.split()`: the maximal runs of non-whitespace characters, in order. */
  function Words(s: string): (r: seq<string>)
    ensures forall k :: 0 <= k < |r| ==> r[k] != ""
    ensures forall k, j :: 0 <= k < |r| && 0 <= j < |r[k]| ==> !IsSpace(r[k][j])
    ensures (forall j :: 0 <= j < |s| ==> IsSpace(s[j])) <==> r == []
    decreases |s|
  {
    if s == "" then []
    else if IsSpace(s[0]) then Words(s[1..])
    else
      var e := WordEnd(s, 0);
      [s[..e]] + Words(s[e..])
  }

  /** Index of the first `c` in `s`, or -1. */
  function IndexOf(s: string, c: char): (r: int)
    ensures -1 <= r < |s|
    ensures r >= 0 ==> s[r] == c && c !in s[..r]
  {
    if |s| == 0 then -1
    else if s[0] == c then 0
    else var k := IndexOf(s[1..], c); if k < 0 then -1 else k + 1
  }

  /** `IndexOf` finds nothing exactly when `c` is not in `s`. */
  lemma {:induction false} IndexOfNone(s: string, c: char)
    ensures IndexOf(s, c) == -1 <==> c !in s
    decreases |s|
  {
    if |s| > 0 && s[0] != c {
      IndexOfNone(s[1..], c);
      assert s == [s[0]] + s[1..];
    }
  }

  /** Python `s.split(c)` for a one-character separator. */
  function Split(s: string, c: char): (r: seq<string>)
    ensures |r| >= 1
    ensures forall k :: 0 <= k < |r| ==> c !in r[k]
    decreases |s|
  {
    var i := IndexOf(s, c);
    if i < 0 then IndexOfNone(s, c); [s] else [s[..i]] + Split(s[i + 1..], c)
  }

  /** Python `c.join(parts)` for a one-character separator. */
  function Join(parts: seq<string>, c: char): string
    decreases |parts|
  {
    if |parts| == 0 then ""
    else if |parts| == 1 then parts[0]
    else parts[0] + [c] + Join(parts[1..], c)
  }

  /** Splitting on `c` and joining again with `c` gives the original string back. */
  lemma {:induction false} JoinSplit(s: string, c: char)
    ensures Join(Split(s, c), c) == s
    decreases |s|
  {
    var i := IndexOf(s, c);
    if i >= 0 {
      var rest := s[i + 1..];
      JoinSplit(rest, c);
      SplitAt(s, c, i);
      JoinCons(s[..i], Split(rest, c), c);
      Reassemble(s, i);
    } else {
      SplitNone(s, c);
    }
  }

  /** Without `c`, the split is the whole string. */
  lemma SplitNone(s: string, c: char)
    requires IndexOf(s, c) < 0
    ensures Split(s, c) == [s] && Join(Split(s, c), c) == s
  {
  }

  /** A string is what comes before index `i`, the character there and what follows. */
  lemma Reassemble(s: string, i: nat)
    requires i < |s|
    ensures s == s[..i] + [s[i]] + s[i + 1..]
  {
  }

  /** Where `c` first occurs at `i`, the split is the piece before it and the split of the rest. */
  lemma SplitAt(s: string, c: char, i: int)
    requires i == IndexOf(s, c) && i >= 0
    ensures Split(s, c) == [s[..i]] + Split(s[i + 1..], c)
  {
    assert Split(s, c) == if i < 0 then [s] else [s[..i]] + Split(s[i + 1..], c);
  }

  /** Joining a piece in front of at least one other puts the separator between them. */
  lemma JoinCons(head: string, tail: seq<string>, c: char)
    requires |tail| >= 1
    ensures Join([head] + tail, c) == head + [c] + Join(tail, c)
  {
    assert ([head] + tail)[1..] == tail;
  }

  /** Joining pieces free of `c` and splitting again gives the pieces back. */
  lemma {:induction false} SplitJoin(parts: seq<string>, c: char)
    requires |parts| >= 1
    requires forall k :: 0 <= k < |parts| ==> c !in parts[k]
    ensures Split(Join(parts, c), c) == parts
    decreases |parts|
  {
    if |parts| > 1 {
      var tail := parts[1..];
      SplitJoin(tail, c);
      JoinCons(parts[0], tail, c);
      SplitAfterFree(parts[0], Join(tail, c), c);
      assert [parts[0]] + tail == parts;
    }
  }

  /** A piece free of `c`, then `c`, splits into that piece and the split of what follows. */
  lemma SplitAfterFree(head: string, rest: string, c: char)
    requires c !in head
    ensures Split(head + [c] + rest, c) == [head] + Split(rest, c)
  {
    var s := head + [c] + rest;
    assert s[..|head|] == head;
    assert s[|head|] == c;
    IndexOfAt(s, c, |head|);
    SplitAt(s, c, |head|);
    assert s[|head| + 1..] == rest;
  }

  /** The first occurrence of `c` is where `c` occurs with none before it. */
  lemma IndexOfAt(s: string, c: char, i: int)
    requires 0 <= i < |s| && s[i] == c && c !in s[..i]
    ensures IndexOf(s, c) == i
  {
    var r := IndexOf(s, c);
    assert c in s;
    IndexOfNone(s, c);
    assert forall j :: 0 <= j < i ==> s[..i][j] == s[j];
  }

  /** The last field of `s.split(c)`, Python `s.split(c)[-1]`. */
  function LastField(s: string, c: char): (r: string)
    ensures c !in r && EndsWith(s, r)
  {
    var parts := Split(s, c);
    JoinSplitLast(s, c);
    parts[|parts| - 1]
  }

  /** The last field after a separator is whatever follows the last separator. */
  lemma {:induction false} LastFieldAfter(a: string, b: string, c: char)
    requires c !in b
    ensures LastField(a + [c] + b, c) == b
    decreases |a|
  {
    if c !in a {
      LastFieldOfTail(a, b, c);
    } else {
      var j := LastFieldSkip(a, b, c);
      LastFieldAfter(a[j + 1..], b, c);
    }
  }

  /** With no `c` before the separator, the last field is what follows it. */
  lemma LastFieldOfTail(a: string, b: string, c: char)
    requires c !in a && c !in b
    ensures LastField(a + [c] + b, c) == b
  {
    var s := a + [c] + b;
    assert s[|a|] == c;
    assert s[..|a|] == a;
    IndexOfAt(s, c, |a|);
    LastFieldAt(s, c, |a|);
    assert s[|a| + 1..] == b;
    IndexOfNone(b, c);
    SplitNone(b, c);
  }

  /** A `c` inside `a` at `j` can be skipped: the last field is that of what follows it. */
  lemma LastFieldSkip(a: string, b: string, c: char) returns (j: nat)
    requires c in a
    ensures j < |a| && LastField(a + [c] + b, c) == LastField(a[j + 1..] + [c] + b, c)
  {
    IndexOfNone(a, c);
    j := IndexOf(a, c);
    CutAt(a, c, b, j);
    IndexOfAt(a + [c] + b, c, j);
    LastFieldAt(a + [c] + b, c, j);
  }

  /** Cutting `a + [c] + b` inside `a`. */
  lemma CutAt(a: string, c: char, b: string, j: nat)
    requires j < |a|
    ensures (a + [c] + b)[..j] == a[..j] && (a + [c] + b)[j] == a[j]
    ensures (a + [c] + b)[j + 1..] == a[j + 1..] + [c] + b
  {
  }

  /** Past the first `c`, the last field is that of the rest. */
  lemma LastFieldAt(s: string, c: char, i: int)
    requires i == IndexOf(s, c) && i >= 0
    ensures LastField(s, c) == LastField(s[i + 1..], c)
  {
    SplitAt(s, c, i);
    LastOfCons(s[..i], Split(s[i + 1..], c));
  }

  lemma LastOfCons<T>(x: T, r: seq<T>)
    requires |r| >= 1
    ensures |[x] + r| - 1 == |r| && ([x] + r)[|r|] == r[|r| - 1]
  {
  }

  /** `s` ends with the last piece of `s.split(c)`. */
  lemma JoinSplitLast(s: string, c: char)
    ensures EndsWith(s, Split(s, c)[|Split(s, c)| - 1])
  {
    JoinSplit(s, c);
    JoinEndsWithLast(Split(s, c), c);
  }

  /** A join ends with its last piece. */
  lemma {:induction false} JoinEndsWithLast(parts: seq<string>, c: char)
    requires |parts| >= 1
    ensures EndsWith(Join(parts, c), parts[|parts| - 1])
    decreases |parts|
  {
    if |parts| > 1 {
      var tail := parts[1..];
      JoinEndsWithLast(tail, c);
      var whole := Join(parts, c);
      assert whole[|parts[0]| + 1..] == Join(tail, c);
      EndsWithOfSuffix(whole, |parts[0]| + 1, tail[|tail| - 1]);
    }
  }

  /** What a suffix of `s` ends with, `s` ends with too. */
  lemma EndsWithOfSuffix(s: string, d: nat, tail: string)
    requires d <= |s| && EndsWith(s[d..], tail)
    ensures EndsWith(s, tail)
  {
    assert s[|s| - |tail|..] == s[d..][|s[d..]| - |tail|..];
  }

  /** Line boundaries recognised by Python's `str.splitlines()`. */
  predicate IsLineBreak(ch: char) {
    ch == '\n' || ch == '\r' || ch == '\U{0B}' || ch == '\U{0C}' || ch == '\U{1C}'
    || ch == '\U{1D}' || ch == '\U{1E}' || ch == '\U{85}' || ch == '\U{2028}' || ch == '\U{2029}'
  }

  /** Index of the first line boundary in `s`, or -1. */
  function FirstBreak(s: string): (r: int)
    ensures -1 <= r < |s|
    ensures r >= 0 ==> IsLineBreak(s[r]) && forall j :: 0 <= j < r ==> !IsLineBreak(s[j])
  {
    if |s| == 0 then -1
    else if IsLineBreak(s[0]) then 0
    else var k := FirstBreak(s[1..]); if k < 0 then -1 else k + 1
  }

  /** `s` has no line boundary exactly when `FirstBreak` finds none. */
  lemma {:induction false} FirstBreakNone(s: string)
    ensures FirstBreak(s) == -1 <==> forall j :: 0 <= j < |s| ==> !IsLineBreak(s[j])
    decreases |s|
  {
    if |s| > 0 && !IsLineBreak(s[0]) {
      FirstBreakNone(s[1..]);
      assert forall j :: 0 < j < |s| ==> s[j] == s[1..][j - 1];
    }
  }

  /** Start of the next line after the boundary at `i`: "\r\n" counts as one boundary. */
  function NextLine(s: string, i: nat): (n: nat)
    requires i < |s|
    ensures i < n <= |s|
  {
    if s[i] == '\r' && i + 1 < |s| && s[i + 1] == '\n' then i + 2 else i + 1
  }

  /** Python `s.splitlines()`: no trailing empty line, "\r\n" is one boundary, "" has no lines. */
  function SplitLines(s: string): (r: seq<string>)
    ensures s == "" <==> r == []
    ensures forall k, j :: 0 <= k < |r| && 0 <= j < |r[k]| ==> !IsLineBreak(r[k][j])
    decreases |s|
  {
    if s == "" then []
    else
      var i := FirstBreak(s);
      if i < 0 then FirstBreakNone(s); [s]
      else
        [s[..i]] + SplitLines(s[NextLine(s, i)..])
  }

  /** Python `s.count(sub)` for a non-empty `sub`: non-overlapping occurrences, leftmost first. */
  function CountOf(s: string, sub: string): (n: nat)
    requires |sub| > 0
    ensures n == 0 <==> !Contains(s, sub)
    decreases |s|
  {
    var i := Find(s, sub);
    if i < 0 then 0 else 1 + CountOf(s[i + |sub|..], sub)
  }

  lemma OccursShift(s: string, sub: string, d: nat, j: int)
    requires d <= |s|
    ensures OccursAt(s[d..], sub, j) <==> (j >= 0 && OccursAt(s, sub, j + d))
  {
    if j >= 0 && j + |sub| <= |s| - d {
      assert s[d..][j..j + |sub|] == s[j + d..j + d + |sub|];
    }
  }

  /** `sub` occurs at `i` and again at `j`, the two occurrences not overlapping. */
  predicate TwoDisjoint(s: string, sub: string, i: int, j: int) {
    OccursAt(s, sub, i) && i + |sub| <= j && OccursAt(s, sub, j)
  }

  lemma CountTwoWitness(s: string, sub: string) returns (i: int, j: int)
    requires |sub| > 0 && CountOf(s, sub) >= 2
    ensures TwoDisjoint(s, sub, i, j)
  {
    var d := CountStep(s, sub);
    j := OccursAfter(s, sub, d);
    i := Find(s, sub);
  }

  /** Where what follows `d` holds `sub`, `s` holds it at or after `d`. */
  lemma OccursAfter(s: string, sub: string, d: nat) returns (j: int)
    requires |sub| > 0 && SomeAfter(s, sub, d)
    ensures d <= j && OccursAt(s, sub, j)
  {
    var rest := s[d..];
    var _ := CountStep(rest, sub);
    var q: nat := Find(rest, sub);
    OccursInSuffix(s, d, sub, q);
    j := q + d;
  }

  /** A string that holds `sub` holds it first where `Find` says, and counts one more than
      what follows that occurrence. */
  lemma CountStep(s: string, sub: string) returns (d: nat)
    requires |sub| > 0 && CountOf(s, sub) >= 1
    ensures Find(s, sub) >= 0 && OccursAt(s, sub, Find(s, sub)) && d == Find(s, sub) + |sub|
    ensures CountOf(s, sub) == 1 + CountOf(s[d..], sub)
    ensures CountOf(s, sub) >= 2 ==> SomeAfter(s, sub, d)
  {
    assert Contains(s, sub);
    d := Find(s, sub) + |sub|;
  }

  /** What follows index `d` of `s` still holds `sub`. */
  predicate SomeAfter(s: string, sub: string, d: nat)
    requires |sub| > 0
  {
    d <= |s| && CountOf(s[d..], sub) >= 1
  }

  lemma CountFromWitness(s: string, sub: string, a: int, b: int)
    requires |sub| > 0 && TwoDisjoint(s, sub, a, b)
    ensures CountOf(s, sub) >= 2
  {
    var i := Find(s, sub);
    assert i >= 0 && i <= a;
    var d := i + |sub|;
    OccursShift(s, sub, d, b - d);
    ContainsAt(s[d..], sub, b - d);
  }

  /** `s.count(sub) > 1` holds exactly when `sub` occurs at two positions that do not overlap. */
  lemma CountAtLeastTwo(s: string, sub: string)
    requires |sub| > 0
    ensures CountOf(s, sub) >= 2 <==> exists i, j :: TwoDisjoint(s, sub, i, j)
  {
    if CountOf(s, sub) >= 2 {
      var i, j := CountTwoWitness(s, sub);
    }
    if exists i, j :: TwoDisjoint(s, sub, i, j) {
      var a, b :| TwoDisjoint(s, sub, a, b);
      CountFromWitness(s, sub, a, b);
    }
  }

  /** Python `list.count(x)`. */
  function CountEq(xs: seq<string>, x: string): (n: nat)
    ensures n == multiset(xs)[x]
    ensures n <= |xs|
  {
    if |xs| == 0 then 0
    else
      assert xs == [xs[0]] + xs[1..];
      (if xs[0] == x then 1 else 0) + CountEq(xs[1..], x)
  }

  /** Python `s.replace(pat, '')` for a non-empty `pat`: left-to-right, non-overlapping. */
  function RemoveAll(s: string, pat: string): (r: string)
    requires |pat| > 0
    ensures |r| <= |s|
    ensures !Contains(s, pat) ==> r == s
    decreases |s|
  {
    if |s| < |pat| then s
    else if s[..|pat|] == pat then RemoveAll(s[|pat|..], pat)
    else
      (assert !Contains(s, pat) ==> !Contains(s[1..], pat) by {
        if Contains(s[1..], pat) {
          var j := Find(s[1..], pat);
          OccursShift(s, pat, 1, j);
        }
      }
      [s[0]] + RemoveAll(s[1..], pat))
  }

  /** A string that does not open with `pat` keeps its first character. */
  lemma RemoveKeepsHead(s: string, pat: string)
    requires |pat| > 0 && |s| >= |pat| && s[..|pat|] != pat
    ensures RemoveAll(s, pat) == [s[0]] + RemoveAll(s[1..], pat)
  {
  }

  /** ASCII upper-casing, Python `str.upper()` on ASCII letters. */
  function UpperChar(ch: char): char {
    if 'a' <= ch <= 'z' then (ch as int - 'a' as int + 'A' as int) as char else ch
  }

  function Upper(s: string): (r: string)
    ensures |r| == |s|
    ensures forall i :: 0 <= i < |s| ==> r[i] == UpperChar(s[i])
  {
    seq(|s|, i requires 0 <= i < |s| => UpperChar(s[i]))
  }

  predicate IsDigit(ch: char) {
    '0' as int <= ch as int <= '9' as int
  }

  function DigitChar(d: nat): (ch: char)
    requires d < 10
    ensures IsDigit(ch)
  {
    ('0' as int + d) as char
  }

  /** Python `str(n)` for a natural number. */
  function NatToString(n: nat): (r: string)
    ensures |r| >= 1
    ensures forall i :: 0 <= i < |r| ==> IsDigit(r[i])
  {
    if n < 10 then [DigitChar(n)] else NatToString(n / 10) + [DigitChar(n % 10)]
  }

  /** Value of a string of decimal digits. */
  function DecimalValue(s: string): nat
    requires forall i :: 0 <= i < |s| ==> IsDigit(s[i])
  {
    if |s| == 0 then 0
    else
      assert IsDigit(s[|s| - 1]);
      10 * DecimalValue(s[..|s| - 1]) + (s[|s| - 1] as int - '0' as int)
  }

  /** `str(n)` is read back as `n`. */
  lemma {:induction false} NatToStringValue(n: nat)
    ensures DecimalValue(NatToString(n)) == n
  {
    if n >= 10 {
      NatToStringValue(n / 10);
      var s := NatToString(n);
      assert s[..|s| - 1] == NatToString(n / 10);
    }
  }

  /** Concatenation regroups freely. */
  lemma AppendAssoc(a: string, b: string, c: string)
    ensures (a + b) + c == a + (b + c)
  {
  }

  /** Appending nothing changes nothing. */
  lemma AppendNothing(a: string)
    ensures a + "" == a
  {
  }

  /** Regrouping `a + (b + [c] + d)` at the separator `c`. */
  lemma RegroupAt(a: string, b: string, c: char, d: string)
    ensures a + (b + [c] + d) == (a + b) + [c] + d
  {
  }

  /** A number written after the last `=` is read back from the last `=` field. */
  lemma NumberAfterEquals(head: string, n: nat)
    ensures LastField(head + ['='] + NatToString(n), '=') == NatToString(n)
  {
    var digits := NatToString(n);
    forall k | 0 <= k < |digits|
      ensures digits[k] != '='
    {
      assert IsDigit(digits[k]);
    }
    LastFieldAfter(head, digits, '=');
  }

  function HexDigit(d: nat): char
    requires d < 16
  {
    if d < 10 then DigitChar(d) else ('a' as int + d - 10) as char
  }

  function HexDigits(n: nat): (r: string)
    ensures |r| >= 1
  {
    if n < 16 then [HexDigit(n)] else HexDigits(n / 16) + [HexDigit(n % 16)]
  }

  /** Python `hex(n).lower()` for a natural number. */
  function HexLower(n: nat): (r: string)
    ensures StartsWith(r, "0x") && |r| >= 3
  {
    "0x" + HexDigits(n)
  }

  predicate IsLowerHexDigit(ch: char) {
    IsDigit(ch) || 'a' <= ch <= 'f'
  }

  function HexDigitValue(ch: char): nat
    requires IsLowerHexDigit(ch)
  {
    if IsDigit(ch) then ch as int - '0' as int else ch as int - 'a' as int + 10
  }

  /** Value of a string of lower-case hexadecimal digits. */
  function HexValue(s: string): nat
    requires forall i :: 0 <= i < |s| ==> IsLowerHexDigit(s[i])
  {
    if |s| == 0 then 0 else 16 * HexValue(s[..|s| - 1]) + HexDigitValue(s[|s| - 1])
  }

  /** `hex(n).lower()` is `0x` followed by lower-case hexadecimal digits that read back as
      `n`. */
  lemma {:induction false} HexLowerValue(n: nat)
    ensures HexLower(n)[..2] == "0x"
    ensures forall i :: 2 <= i < |HexLower(n)| ==> IsLowerHexDigit(HexLower(n)[i])
    ensures HexValue(HexLower(n)[2..]) == n
  {
    HexDigitsValue(n);
    assert HexLower(n)[2..] == HexDigits(n);
  }

  lemma {:induction false} HexDigitsValue(n: nat)
    ensures forall i :: 0 <= i < |HexDigits(n)| ==> IsLowerHexDigit(HexDigits(n)[i])
    ensures HexValue(HexDigits(n)) == n
  {
    if n >= 16 {
      HexDigitsValue(n / 16);
      var s := HexDigits(n);
      assert s[..|s| - 1] == HexDigits(n / 16);
    }
  }

  /** A decimal integer literal as Python's `int()` reads it: an optional sign, then one or
      more digits. */
  predicate IsIntLiteral(s: string) {
    |Unsigned(s)| > 0 && forall i :: 0 <= i < |Unsigned(s)| ==> IsDigit(Unsigned(s)[i])
  }

  /** The literal without its sign. */
  function Unsigned(s: string): string {
    if |s| > 0 && (s[0] == '+' || s[0] == '-') then s[1..] else s
  }

  function IntLiteralValue(s: string): int
    requires IsIntLiteral(s)
  {
    var m: int := DecimalValue(Unsigned(s));
    if s[0] == '-' then -m else m
  }

  /** Python `str(n)` for any integer. */
  function IntToString(n: int): string {
    if n < 0 then "-" + NatToString(-n) else NatToString(n)
  }

  /** `int(str(n)) == n`. */
  lemma {:induction false} IntToStringValue(n: int)
    ensures IsIntLiteral(IntToString(n)) && IntLiteralValue(IntToString(n)) == n
  {
    if n < 0 {
      NatToStringValue(-n);
      assert IntToString(n)[1..] == NatToString(-n);
    } else {
      NatToStringValue(n);
      assert IsDigit(NatToString(n)[0]);
    }
  }
}
