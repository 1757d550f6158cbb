/**
 The string operations the service takes from Go's `strings` package, over ASCII
 letters and ASCII white space. The JavaScript and Python code uses the same operations
 under other names (trim, toLowerCase, split, join, includes, startsWith).
 */
module Strings {

  // ---- letter case ----

  function LowerChar(c: char): char {
    if 'A' <= c <= 'Z' then c + 32 as char else c
  }

  function ToLower(s: string): (r: string)
    ensures |r| == |s|
  {
    seq(|s|, i requires 0 <= i < |s| => LowerChar(s[i]))
  }

  /** The capital letters, and nothing else, become the small letters. */
  lemma LowerLetters(s: string, i: nat)
    requires i < |s|
    ensures forall k | 0 <= k < 26 ::
      s[i] == "ABCDEFGHIJKLMNOPQRSTUVWXYZ"[k] ==> ToLower(s)[i] == "abcdefghijklmnopqrstuvwxyz"[k]
    ensures s[i] !in "ABCDEFGHIJKLMNOPQRSTUVWXYZ" ==> ToLower(s)[i] == s[i]
  {
    var capitals := "ABCDEFGHIJKLMNOPQRSTUVWXYZ";
    var k := if 'A' <= s[i] <= 'Z' then s[i] as int - 'A' as int else 0;
    LetterAt(k);
    assert capitals[k] in capitals;
    forall k | 0 <= k < 26 && s[i] == capitals[k]
      ensures ToLower(s)[i] == "abcdefghijklmnopqrstuvwxyz"[k]
    {
      LetterAt(k);
    }
  }

  lemma LetterAt(k: nat)
    requires k < 26
    ensures "ABCDEFGHIJKLMNOPQRSTUVWXYZ"[k] == 'A' + k as char
    ensures "abcdefghijklmnopqrstuvwxyz"[k] == 'a' + k as char
  {
  }

  lemma ToLowerIdempotent(s: string)
    ensures ToLower(ToLower(s)) == ToLower(s)
  {
  }

  // ---- trimming ----

  predicate IsSpace(c: char) {
    c == ' ' || '\t' <= c <= '\r'
  }

  function TrimLeft(s: string): (r: string)
    ensures |r| <= |s| && r == s[|s| - |r|..]
    ensures r != "" ==> !IsSpace(r[0])
  {
    if s != "" && IsSpace(s[0]) then TrimLeft(s[1..]) else s
  }

  function TrimRight(s: string): (r: string)
    ensures r <= s
    ensures r != "" ==> !IsSpace(r[|r| - 1])
  {
    if s != "" && IsSpace(s[|s| - 1]) then TrimRight(s[..|s| - 1]) else s
  }

  function Trim(s: string): (r: string)
    ensures Trimmed(r)
  {
    var left := TrimLeft(s);
    TrimRight(left)
  }

  predicate Trimmed(s: string) {
    s == "" || (!IsSpace(s[0]) && !IsSpace(s[|s| - 1]))
  }

  lemma TrimKeepsChars(s: string, c: char)
    requires c in Trim(s)
    ensures c in s
  {
  }

  lemma TrimOfTrimmed(s: string)
    requires Trimmed(s)
    ensures Trim(s) == s
  {
  }

  /** Only spaces, tabs and the line breaks of ASCII. */
  predicate Blank(s: string) {
    forall c | c in s :: c in [' ', '\t', '\n', '\U{B}', '\U{C}', '\r']
  }

  lemma {:induction false} TrimLeftCuts(s: string)
    ensures Blank(s[..|s| - |TrimLeft(s)|])
  {
    if s != "" && IsSpace(s[0]) {
      TrimLeftCuts(s[1..]);
      var n := |s| - |TrimLeft(s)|;
      assert s[..n] == [s[0]] + s[1..][..n - 1];
    }
  }

  lemma {:induction false} TrimRightCuts(s: string)
    ensures Blank(s[|TrimRight(s)|..])
  {
    if s != "" && IsSpace(s[|s| - 1]) {
      var n := |s| - 1;
      TrimRightCuts(s[..n]);
      var m := |TrimRight(s)|;
      assert s[m..] == s[..n][m..] + [s[n]];
    }
  }

  lemma TrimmedEnds(p: string)
    requires p != "" && Trimmed(p)
    ensures !Blank([p[0]]) && !Blank([p[|p| - 1]])
  {
    assert p[0] in [p[0]] && p[|p| - 1] in [p[|p| - 1]];
  }

  lemma Cut(s: string, n: nat)
    requires n <= |s|
    ensures s == s[..n] + s[n..]
  {
  }

  /** Trimming takes blanks off both ends and nothing else: what is left has no blank at either end. */
  lemma TrimCuts(s: string) returns (before: string, after: string)
    ensures s == before + Trim(s) + after && Blank(before) && Blank(after)
    ensures Trim(s) != "" ==> !Blank([Trim(s)[0]]) && !Blank([Trim(s)[|Trim(s)| - 1]])
  {
    hide TrimLeft, TrimRight, Trimmed, Blank;
    var left := TrimLeft(s);
    TrimLeftCuts(s);
    TrimRightCuts(left);
    before, after := s[..|s| - |left|], left[|Trim(s)|..];
    Cut(s, |s| - |left|);
    Cut(left, |Trim(s)|);
    assert s == before + (Trim(s) + after);
    if Trim(s) != "" { TrimmedEnds(Trim(s)); }
  }

  lemma {:induction false} TrimLeftPadded(before: string, p: string)
    requires Blank(before) && (p == "" || !IsSpace(p[0]))
    ensures TrimLeft(before + p) == p
  {
    if before == "" {
      assert before + p == p;
    } else {
      assert before[0] in before && IsSpace(before[0]);
      assert (before + p)[1..] == before[1..] + p;
      TrimLeftPadded(before[1..], p);
    }
  }

  lemma {:induction false} TrimRightPadded(p: string, after: string)
    requires Blank(after) && (p == "" || !IsSpace(p[|p| - 1]))
    ensures TrimRight(p + after) == p
  {
    if after == "" {
      assert p + after == p;
    } else {
      var n := |after| - 1;
      assert after[n] in after && IsSpace(after[n]);
      assert (p + after)[..|p| + n] == p + after[..n];
      TrimRightPadded(p, after[..n]);
    }
  }

  /** Blanks put around a trimmed text come off again. */
  lemma TrimPadded(before: string, p: string, after: string)
    requires Blank(before) && Blank(after) && Trimmed(p)
    ensures Trim(before + p + after) == p
  {
    if p == "" {
      assert Blank(before + after);
      TrimLeftPadded(before + after, "");
      assert before + after + "" == before + p + after;
    } else {
      assert before + p + after == before + (p + after);
      TrimLeftPadded(before, p + after);
      TrimRightPadded(p, after);
    }
  }

  lemma {:induction false} TrimLeftLower(s: string)
    ensures TrimLeft(ToLower(s)) == ToLower(TrimLeft(s))
  {
    assert s != "" ==> IsSpace(ToLower(s)[0]) == IsSpace(s[0]);
    if s != "" && IsSpace(s[0]) {
      assert ToLower(s)[1..] == ToLower(s[1..]);
      TrimLeftLower(s[1..]);
    }
  }

  lemma {:induction false} TrimRightLower(s: string)
    ensures TrimRight(ToLower(s)) == ToLower(TrimRight(s))
  {
    if s != "" && IsSpace(s[|s| - 1]) {
      assert ToLower(s)[..|s| - 1] == ToLower(s[..|s| - 1]);
      TrimRightLower(s[..|s| - 1]);
    }
  }

  /** Trimming and lower-casing commute, so the order a caller applies them in is free. */
  lemma TrimLower(s: string)
    ensures Trim(ToLower(s)) == ToLower(Trim(s))
  {
    TrimLeftLower(s);
    TrimRightLower(TrimLeft(s));
  }

  // ---- searching, splitting, joining ----

  predicate OccursAt(s: string, sep: string, i: int) {
    0 <= i <= |s| - |sep| && s[i..i + |sep|] == sep
  }

  /** The index of the first occurrence of `sep`, or -1. */
  function IndexOf(s: string, sep: string): (r: int)
    ensures -1 <= r <= |s| - |sep| || r == -1
  {
    if sep <= s then 0
    else if s == "" then -1
    else
      var r := IndexOf(s[1..], sep);
      if r < 0 then -1 else r + 1
  }

  lemma {:induction false} FoundAt(s: string, sep: string)
    requires IndexOf(s, sep) >= 0
    ensures OccursAt(s, sep, IndexOf(s, sep))
  {
    var i := IndexOf(s, sep);
    if !(sep <= s) {
      FoundAt(s[1..], sep);
      assert s[i..i + |sep|] == s[1..][i - 1..i - 1 + |sep|];
    }
  }

  lemma CutAt(s: string, sep: string, i: int)
    requires OccursAt(s, sep, i)
    ensures s == s[..i] + sep + s[i + |sep|..]
  {
    assert s == s[..i] + s[i..i + |sep|] + s[i + |sep|..];
  }

  lemma {:induction false} FoundFirst(s: string, sep: string, i: nat)
    requires OccursAt(s, sep, i)
    ensures 0 <= IndexOf(s, sep) <= i
  {
    if i == 0 {
      assert s[..|sep|] == s[0..0 + |sep|] == sep;
    } else if !(sep <= s) {
      assert s[1..][i - 1..i - 1 + |sep|] == s[i..i + |sep|];
      FoundFirst(s[1..], sep, i - 1);
    }
  }

  predicate Contains(s: string, sep: string) {
    IndexOf(s, sep) >= 0
  }

  /** Containing a text is having it somewhere. */
  lemma ContainsIff(s: string, sep: string)
    ensures Contains(s, sep) <==> exists a, b :: s == a + sep + b
  {
    if Contains(s, sep) {
      FoundAt(s, sep);
      CutAt(s, sep, IndexOf(s, sep));
    }
    if a, b :| s == a + sep + b {
      assert s[|a|..|a| + |sep|] == sep;
      FoundFirst(s, sep, |a|);
    }
  }

  function Split(s: string, sep: string): (parts: seq<string>)
    requires sep != ""
    ensures |parts| >= 1
    decreases |s|
  {
    var i := IndexOf(s, sep);
    if i < 0 then [s] else [s[..i]] + Split(s[i + |sep|..], sep)
  }

  function Join(parts: seq<string>, sep: string): string {
    if parts == [] then ""
    else if |parts| == 1 then parts[0]
    else parts[0] + sep + Join(parts[1..], sep)
  }

  /** Splitting loses nothing, whatever the separator overlaps with. */
  lemma {:induction false} JoinSplit(s: string, sep: string)
    requires sep != ""
    ensures Join(Split(s, sep), sep) == s
    decreases |s|
  {
    var i := IndexOf(s, sep);
    if i >= 0 {
      FoundAt(s, sep);
      CutAt(s, sep, i);
      var rest := Split(s[i + |sep|..], sep);
      JoinSplit(s[i + |sep|..], sep);
      assert ([s[..i]] + rest)[1..] == rest;
    }
  }

  lemma {:induction false} JoinLast(parts: seq<string>, sep: string)
    requires |parts| >= 2
    ensures Join(parts, sep) == Join(parts[..|parts| - 1], sep) + sep + parts[|parts| - 1]
  {
    var n := |parts| - 1;
    if n > 1 {
      JoinLast(parts[1..], sep);
      assert parts[1..][..n - 1] == parts[..n][1..];
    }
  }

  lemma BeforeFirstHasNoSeparator(s: string, sep: string)
    requires sep != "" && Contains(s, sep)
    ensures !Contains(s[..IndexOf(s, sep)], sep)
  {
    var i := IndexOf(s, sep);
    var j := IndexOf(s[..i], sep);
    if j >= 0 {
      FoundAt(s[..i], sep);
      assert s[..i][j..j + |sep|] == s[j..j + |sep|];
      FoundFirst(s, sep, j);
    }
  }

  lemma {:induction false} PartsHaveNoSeparator(s: string, sep: string, k: nat)
    requires sep != "" && k < |Split(s, sep)|
    ensures !Contains(Split(s, sep)[k], sep)
    decreases |s|
  {
    var i := IndexOf(s, sep);
    if i >= 0 {
      var rest := s[i + |sep|..];
      if k == 0 {
        BeforeFirstHasNoSeparator(s, sep);
      } else {
        PartsHaveNoSeparator(rest, sep, k - 1);
        assert Split(s, sep)[k] == Split(rest, sep)[k - 1];
      }
    }
  }

  /** A string has one part exactly when the separator is not in it. */
  lemma SplitSingle(s: string, sep: string)
    requires sep != ""
    ensures |Split(s, sep)| == 1 <==> !Contains(s, sep)
  {
  }

  /** Cutting off the last part: the rest, the separator and the part rebuild the string. */
  lemma SplitOffLast(s: string, sep: string)
    requires sep != "" && Contains(s, sep)
    ensures var parts := Split(s, sep);
            var n := |parts| - 1;
            n >= 1 && s == Join(parts[..n], sep) + sep + parts[n] && !Contains(parts[n], sep)
  {
    var parts := Split(s, sep);
    SplitSingle(s, sep);
    JoinSplit(s, sep);
    JoinLast(parts, sep);
    PartsHaveNoSeparator(s, sep, |parts| - 1);
  }

  // ---- splitting on one character ----

  lemma {:induction false} IndexOfChar(s: string, c: char)
    ensures IndexOf(s, [c]) < 0 <==> c !in s
    ensures IndexOf(s, [c]) >= 0 ==> s[IndexOf(s, [c])] == c
    ensures forall k | 0 <= k < IndexOf(s, [c]) :: s[k] != c
  {
    if s != "" && s[0] != c {
      IndexOfChar(s[1..], c);
      assert s == [s[0]] + s[1..];
    }
  }

  lemma FirstCut(p: string, c: char, rest: string)
    requires c !in p
    ensures IndexOf(p + [c] + rest, [c]) == |p|
    ensures (p + [c] + rest)[..|p|] == p && (p + [c] + rest)[|p| + 1..] == rest
  {
    var s := p + [c] + rest;
    IndexOfChar(s, c);
    hide IndexOf;
    assert s[|p|] == c;
    assert forall k | 0 <= k < |p| :: s[k] == p[k];
  }

  lemma SplitStep(p: string, c: char, rest: string)
    requires c !in p
    ensures Split(p + [c] + rest, [c]) == [p] + Split(rest, [c])
  {
    FirstCut(p, c, rest);
    hide IndexOf;
  }

  /** Splitting undoes joining when no part holds the separating character. */
  lemma {:induction false} SplitJoin(parts: seq<string>, c: char)
    requires |parts| >= 1
    requires forall i | 0 <= i < |parts| :: c !in parts[i]
    ensures Split(Join(parts, [c]), [c]) == parts
  {
    if |parts| == 1 {
      IndexOfChar(parts[0], c);
      hide IndexOf;
    } else {
      hide IndexOf, Split;
      SplitJoin(parts[1..], c);
      SplitStep(parts[0], c, Join(parts[1..], [c]));
      assert parts == [parts[0]] + parts[1..];
    }
  }

  lemma IndexOfLowerComma(s: string)
    ensures IndexOf(ToLower(s), ",") == IndexOf(s, ",")
  {
    IndexOfChar(s, ',');
    IndexOfChar(ToLower(s), ',');
    var a, b := IndexOf(s, ","), IndexOf(ToLower(s), ",");
    assert forall i | 0 <= i < |s| :: (ToLower(s)[i] == ',') == (s[i] == ',');
    if a >= 0 { assert ToLower(s)[a] == ','; }
    if b >= 0 { assert s[b] == ','; }
  }

  /** A comma-separated list splits at the same places in any letter case. */
  lemma {:induction false} SplitLower(s: string)
    ensures |Split(ToLower(s), ",")| == |Split(s, ",")|
    ensures forall i | 0 <= i < |Split(s, ",")| :: Split(ToLower(s), ",")[i] == ToLower(Split(s, ",")[i])
    decreases |s|
  {
    IndexOfLowerComma(s);
    var i := IndexOf(s, ",");
    if i >= 0 {
      SplitLower(s[i + 1..]);
      assert ToLower(s)[i + 1..] == ToLower(s[i + 1..]);
      assert ToLower(s)[..i] == ToLower(s[..i]);
    }
  }

  // ---- ordering ----

  /** Go's `<` on strings. */
  predicate Less(a: string, b: string) {
    if b == "" then false
    else if a == "" then true
    else a[0] < b[0] || (a[0] == b[0] && Less(a[1..], b[1..]))
  }

  /**
   The order of a dictionary: at the first place where the two differ the smaller one has the smaller character,
   or there it has ended.
   */
  ghost predicate Earlier(a: string, b: string) {
    exists n: nat ::
      && n <= |a| && n < |b| && a[..n] == b[..n]
      && (n == |a| || a[n] < b[n])
  }

  lemma {:induction false} LessIsEarlier(a: string, b: string)
    ensures Less(a, b) <==> Earlier(a, b)
  {
    if a != "" && b != "" && a[0] == b[0] {
      LessIsEarlier(a[1..], b[1..]);
      var c, d := a[1..], b[1..];
      if n: nat :| n <= |c| && n < |d| && c[..n] == d[..n] && (n == |c| || c[n] < d[n]) {
        assert a[..n + 1] == [a[0]] + c[..n] && b[..n + 1] == [b[0]] + d[..n];
      }
      if n: nat :| n <= |a| && n < |b| && a[..n] == b[..n] && (n == |a| || a[n] < b[n]) {
        assert n > 0;
        assert c[..n - 1] == a[..n][1..] && d[..n - 1] == b[..n][1..];
      }
    } else {
      assert a[..0] == b[..0];
      forall n: nat | 0 < n <= |a| && n < |b| && a[..n] == b[..n] ensures a[0] == b[0] { SameStart(a, b, n); }
    }
  }

  lemma SameStart(a: string, b: string, n: nat)
    requires 0 < n <= |a| && n <= |b| && a[..n] == b[..n]
    ensures a[0] == b[0]
  {
    assert a[0] == a[..n][0] && b[0] == b[..n][0];
  }

  lemma {:induction false} LessIrreflexive(a: string)
    ensures !Less(a, a)
  {
    if a != "" { LessIrreflexive(a[1..]); }
  }

  lemma {:induction false} LessTransitive(a: string, b: string, c: string)
    requires Less(a, b) && Less(b, c)
    ensures Less(a, c)
  {
    if a != "" && a[0] == b[0] == c[0] { LessTransitive(a[1..], b[1..], c[1..]); }
  }

  lemma {:induction false} LessTotal(a: string, b: string)
    requires a != b
    ensures Less(a, b) || Less(b, a)
  {
    if a != "" && b != "" && a[0] == b[0] {
      assert a == [a[0]] + a[1..] && b == [b[0]] + b[1..];
      LessTotal(a[1..], b[1..]);
    }
  }
}
