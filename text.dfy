/**
 * The handful of JavaScript string operations the planner's rules are built
 * from: `toLowerCase`, `trim`, `split(',')`, `split('@')[0]` and the email
 * regular expression `\S+@\S+\.\S+`.
 */
module Text {

  /** JavaScript's `\s` class (WhiteSpace and LineTerminator code points);
      `trim` strips exactly these and `\S` is their complement. */
  predicate IsSpace(c: char) {
    (0x09 <= c as int <= 0x0D) || c as int == 0x20 || c as int == 0xA0 || c as int == 0x1680 ||
    (0x2000 <= c as int <= 0x200A) || c as int == 0x2028 || c as int == 0x2029 ||
    c as int == 0x202F || c as int == 0x205F || c as int == 0x3000 || c as int == 0xFEFF
  }

  /** `toLowerCase` on one character (ASCII letters only). */
  function LowerChar(c: char): (d: char)
    ensures IsSpace(d) <==> IsSpace(c)
    ensures !('A' <= d <= 'Z')
    ensures !('A' <= c <= 'Z') ==> d == c
    ensures 'A' <= c <= 'Z' ==> 'a' <= d <= 'z' && d as int - 'a' as int == c as int - 'A' as int
  {
    if 'A' <= c <= 'Z' then (c as int + 32) as char else c
  }

  /** `toLowerCase`, character by character. */
  function Lower(s: string): string
  {
    seq(|s|, i requires 0 <= i < |s| => LowerChar(s[i]))
  }

  /** Where the text of `s` starts, looking from `k` on: the first position
      that is not white space, or `|s|`. */
  function TextStart(s: string, k: nat): (a: nat)
    requires k <= |s|
    ensures k <= a <= |s|
    ensures a == |s| || !IsSpace(s[a])
    ensures forall i :: k <= i < a ==> IsSpace(s[i])
    decreases |s| - k
  {
    if k == |s| || !IsSpace(s[k]) then k else TextStart(s, k + 1)
  }

  /** Where the text of `s[lo..k]` ends: one past its last character that is
      not white space, or `lo`. */
  function TextEnd(s: string, lo: nat, k: nat): (b: nat)
    requires lo <= k <= |s|
    ensures lo <= b <= k
    ensures b == lo || !IsSpace(s[b - 1])
    ensures forall i :: b <= i < k ==> IsSpace(s[i])
  {
    if k == lo || !IsSpace(s[k - 1]) then k else TextEnd(s, lo, k - 1)
  }

  /** `trim`: the infix of `s` left after stripping white space at both ends;
      everything before and after it is white space. */
  function Trim(s: string): (r: string)
    ensures TextStart(s, 0) + |r| <= |s|
    ensures r == s[TextStart(s, 0)..TextStart(s, 0) + |r|]
    ensures forall i :: TextStart(s, 0) + |r| <= i < |s| ==> IsSpace(s[i])
    ensures |r| == 0 || (!IsSpace(r[0]) && !IsSpace(r[|r| - 1]))
  {
    var a := TextStart(s, 0);
    s[a..TextEnd(s, a, |s|)]
  }

  lemma TrimIdempotent(s: string)
    ensures Trim(Trim(s)) == Trim(s)
  {
    var t := Trim(s);
    if |t| > 0 {
      assert TextStart(t, 0) == 0;
      assert TextEnd(t, 0, |t|) == |t|;
      assert t[0..|t|] == t;
    }
  }

  /** The identity normal form used by every comparison in the planner:
      `s.toLowerCase().trim()`. */
  function Normalize(s: string): string
  {
    Trim(Lower(s))
  }

  /** A normal form has no upper-case letter and no white space at either
      end. */
  lemma NormalizeShape(s: string)
    ensures var r := Normalize(s);
      (|r| == 0 || (!IsSpace(r[0]) && !IsSpace(r[|r| - 1]))) &&
      forall i :: 0 <= i < |r| ==> !('A' <= r[i] <= 'Z')
  {
    var l := Lower(s);
    var r := Trim(l);
    var n := TextStart(l, 0);
    forall i | 0 <= i < |r|
      ensures !('A' <= r[i] <= 'Z')
    {
      assert r[i] == l[n + i];
      assert l[n + i] == LowerChar(s[n + i]);
    }
  }

  /** Index of the first `c` in `s`, or `|s|` when there is none. */
  function IndexOf(s: string, c: char): (i: nat)
    ensures i <= |s|
    ensures c !in s[..i]
    ensures i < |s| ==> s[i] == c
  {
    IndexFrom(s, c, 0)
  }

  /** Index of the first `c` in `s` at or after `k`, or `|s|`. */
  function IndexFrom(s: string, c: char, k: nat): (i: nat)
    requires k <= |s|
    ensures k <= i <= |s|
    ensures forall j :: k <= j < i ==> s[j] != c
    ensures i < |s| ==> s[i] == c
    decreases |s| - k
  {
    if k == |s| || s[k] == c then k else IndexFrom(s, c, k + 1)
  }

  /** `s.split('@')[0]`: the text before the first '@', or all of `s`. */
  function BeforeAt(s: string): (r: string)
    ensures '@' !in r
    ensures |r| <= |s| && r == s[..|r|]
    ensures |r| < |s| ==> s[|r|] == '@'
  {
    s[..IndexOf(s, '@')]
  }

  /** `s.split(sep)`: JavaScript keeps empty pieces, and the empty string
      splits into one empty piece. */
  function Split(s: string, sep: char): (r: seq<string>)
    ensures |r| >= 1
    ensures forall k :: 0 <= k < |r| ==> sep !in r[k]
    decreases |s|
  {
    var i := IndexOf(s, sep);
    if i == |s| then [s] else [s[..i]] + Split(s[i + 1..], sep)
  }

  /** `pieces.join(sep)`, the inverse of `Split`. */
  function Join(pieces: seq<string>, sep: char): string
  {
    if |pieces| <= 1 then (if |pieces| == 0 then "" else pieces[0])
    else pieces[0] + [sep] + Join(pieces[1..], sep)
  }

  function Occurrences(s: string, c: char): nat
  {
    if |s| == 0 then 0 else (if s[0] == c then 1 else 0) + Occurrences(s[1..], c)
  }

  lemma {:induction false} OccurrencesAppend(a: string, b: string, c: char)
    ensures Occurrences(a + b, c) == Occurrences(a, c) + Occurrences(b, c)
  {
    if a != [] {
      assert (a + b)[1..] == a[1..] + b;
      OccurrencesAppend(a[1..], b, c);
    } else {
      assert a + b == b;
    }
  }

  lemma {:induction false} OccurrencesAbsent(s: string, c: char)
    requires c !in s
    ensures Occurrences(s, c) == 0
  {
    if s != [] {
      OccurrencesAbsent(s[1..], c);
    }
  }

  /** Splitting loses nothing: joining the pieces back gives the input. */
  lemma {:induction false} SplitJoin(s: string, sep: char)
    ensures Join(Split(s, sep), sep) == s
    decreases |s|
  {
    var i := IndexOf(s, sep);
    if i < |s| {
      var rest := s[i + 1..];
      SplitJoin(rest, sep);
      var tail := Split(rest, sep);
      assert Split(s, sep) == [s[..i]] + tail;
      assert ([s[..i]] + tail)[1..] == tail;
      assert s == s[..i] + [sep] + rest;
    }
  }

  /** There is one piece per separator, plus one. */
  lemma {:induction false} SplitCount(s: string, sep: char)
    ensures |Split(s, sep)| == Occurrences(s, sep) + 1
    decreases |s|
  {
    var i := IndexOf(s, sep);
    if i == |s| {
      OccurrencesAbsent(s, sep);
    } else {
      SplitCount(s[i + 1..], sep);
      assert s == s[..i] + ([sep] + s[i + 1..]);
      OccurrencesAppend(s[..i], [sep] + s[i + 1..], sep);
      OccurrencesAbsent(s[..i], sep);
      OccurrencesAppend([sep], s[i + 1..], sep);
    }
  }

  /** `/\S+@\S+\.\S+/.test(s)`: somewhere in `s` a non-space character, an
      '@', a non-empty run of non-space characters, a '.', and a non-space
      character follow each other. */
  predicate LooksLikeEmail(s: string) {
    exists i, j | 0 <= i < j < |s| :: EmailMatchAt(s, i, j)
  }

  /** A string the pattern accepts holds an '@' and a '.', and at least
      five characters: one before the '@', one between it and the '.', and
      one after the '.'. */
  lemma EmailShape(s: string)
    requires LooksLikeEmail(s)
    ensures '@' in s && '.' in s && |s| >= 5
  {
    var i, j :| 0 <= i < j < |s| && EmailMatchAt(s, i, j);
    assert s[i] == '@' && s[j] == '.';
  }

  /** The match has its '@' at `i` and the '.' after it at `j`. */
  predicate EmailMatchAt(s: string, i: int, j: int) {
    0 < i && i + 1 < j && j + 1 < |s| &&
    s[i] == '@' && s[j] == '.' && !IsSpace(s[i - 1]) && !IsSpace(s[j + 1]) &&
    forall k :: i < k < j ==> !IsSpace(s[k])
  }
}
