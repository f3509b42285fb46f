/**
 * The handful of Python string operations the lead scorer relies on:
 * `str.strip()`, `str.lower()`, the substring test `p in s`,
 * `str.split(sep)` and `sep.join(parts)`, stated on `seq<char>`.
 */
module Text {

  /** Characters for which Python's `str.isspace()` holds, i.e. what `strip()` removes. */
  predicate IsSpace(c: char) {
    || c == ' ' || c == '\t' || c == '\n' || c == '\r'
    || c == '\U{000B}' || c == '\U{000C}'
    || ('\U{001C}' <= c <= '\U{001F}')
    || c == '\U{0085}' || c == '\U{00A0}' || c == '\U{1680}'
    || ('\U{2000}' <= c <= '\U{200A}')
    || c == '\U{2028}' || c == '\U{2029}' || c == '\U{202F}'
    || c == '\U{205F}' || c == '\U{3000}'
  }

  /** A blank text: empty or made only of whitespace. */
  predicate IsBlank(s: string) {
    forall i :: 0 <= i < |s| ==> IsSpace(s[i])
  }

  /** Every character of `s` from index `lo` up to (not including) `hi` is whitespace. */
  predicate SpacesBetween(s: string, lo: int, hi: int)
    requires 0 <= lo <= hi <= |s|
  {
    forall i :: lo <= i < hi ==> IsSpace(s[i])
  }

  /** Where `lstrip()` cuts: the index of the first non-whitespace character, or `|s|`. */
  function LeftCut(s: string): (k: nat)
    ensures k <= |s| && SpacesBetween(s, 0, k)
    ensures k == |s| || !IsSpace(s[k])
  {
    if |s| == 0 || !IsSpace(s[0]) then
      0
    else
      var k := LeftCut(s[1..]);
      assert forall i :: 1 <= i < k + 1 ==> s[i] == s[1..][i - 1];
      k + 1
  }

  /** Where `rstrip()` cuts: one past the last non-whitespace character, or 0. */
  function RightCut(s: string): (e: nat)
    ensures e <= |s| && SpacesBetween(s, e, |s|)
    ensures e == 0 || !IsSpace(s[e - 1])
  {
    if |s| == 0 || !IsSpace(s[|s| - 1]) then
      |s|
    else
      var e := RightCut(s[..|s| - 1]);
      assert forall i :: e <= i < |s| - 1 ==> s[i] == s[..|s| - 1][i];
      e
  }

  /**
   * Python's `s.strip()`: the slice of `s` from the left cut on that neither
   * starts nor ends with whitespace, with only whitespace cut away on either
   * side; empty exactly when `s` is blank.
   */
  function Strip(s: string): (r: string)
    ensures r == [] || (!IsSpace(r[0]) && !IsSpace(r[|r| - 1]))
    ensures var k := LeftCut(s);
      k + |r| <= |s| && r == s[k..k + |r|] && SpacesBetween(s, 0, k) && SpacesBetween(s, k + |r|, |s|)
    ensures r == [] <==> IsBlank(s)
  {
    var k := LeftCut(s);
    var e := RightCut(s);
    if k == |s| then
      []
    else
      assert !IsBlank(s) by { assert !IsSpace(s[k]); }
      s[k..e]
  }

  /**
   * `strip()` is determined by its contract: a slice of `s` with only whitespace
   * before and after it, and no whitespace at either of its own ends, is `Strip(s)`.
   */
  lemma StripUnique(s: string, k: nat, r: string)
    requires k + |r| <= |s| && r == s[k..k + |r|]
    requires SpacesBetween(s, 0, k) && SpacesBetween(s, k + |r|, |s|)
    requires r == [] || (!IsSpace(r[0]) && !IsSpace(r[|r| - 1]))
    ensures Strip(s) == r
  {
    if r == [] {
      assert IsBlank(s) by {
        forall i | 0 <= i < |s| ensures IsSpace(s[i]) {
          if i < k { assert SpacesBetween(s, 0, k); } else { assert SpacesBetween(s, k, |s|); }
        }
      }
    } else {
      assert s[k] == r[0] && s[k + |r| - 1] == r[|r| - 1];
      var t := Strip(s);
      assert LeftCut(s) == k;
      assert |t| == |r|;
    }
  }

  lemma BlankConcat(a: string, b: string)
    requires IsBlank(a) && IsBlank(b)
    ensures IsBlank(a + b)
  {
    forall i | 0 <= i < |a + b| ensures IsSpace((a + b)[i]) {
      if i < |a| { assert (a + b)[i] == a[i]; } else { assert (a + b)[i] == b[i - |a|]; }
    }
  }

  /** ASCII lower-casing of one character. */
  function LowerChar(c: char): char {
    if 'A' <= c <= 'Z' then (c as int - 'A' as int + 'a' as int) as char else c
  }

  /** Python's `s.lower()`, restricted to the ASCII letters. */
  function Lower(s: string): (r: string)
    ensures |r| == |s|
    ensures forall i :: 0 <= i < |s| ==> !('A' <= r[i] <= 'Z')
    ensures forall i :: 0 <= i < |s| && 'A' <= s[i] <= 'Z' ==> r[i] as int == s[i] as int + 32
    ensures forall i :: 0 <= i < |s| && !('A' <= s[i] <= 'Z') ==> r[i] == s[i]
  {
    seq(|s|, i requires 0 <= i < |s| => LowerChar(s[i]))
  }

  /** `pat` occurs in `s` starting at index `i`. */
  predicate OccursAt(s: string, pat: string, i: int) {
    0 <= i && i + |pat| <= |s| && s[i..i + |pat|] == pat
  }

  /** Python's `pat in s` on strings: a scan over the start positions of `s`. */
  function Contains(s: string, pat: string): (r: bool)
    ensures r <==> exists i :: OccursAt(s, pat, i)
  {
    if |pat| > |s| then
      false
    else if s[..|pat|] == pat then
      assert OccursAt(s, pat, 0);
      true
    else
      var r := Contains(s[1..], pat);
      assert forall i :: OccursAt(s[1..], pat, i) <==> OccursAt(s, pat, i + 1) by {
        forall i ensures OccursAt(s[1..], pat, i) <==> OccursAt(s, pat, i + 1) {
          if 0 <= i && i + |pat| <= |s| - 1 {
            assert s[1..][i..i + |pat|] == s[i + 1..i + 1 + |pat|];
          }
        }
      }
      assert r ==> exists i :: OccursAt(s, pat, i) by {
        if r {
          var i :| OccursAt(s[1..], pat, i);
          assert OccursAt(s, pat, i + 1);
        }
      }
      assert (exists i :: OccursAt(s, pat, i)) ==> r by {
        if exists i :: OccursAt(s, pat, i) {
          var i :| OccursAt(s, pat, i);
          assert i != 0;
          assert OccursAt(s[1..], pat, i - 1);
        }
      }
      r
  }

  /** Python's `sep.join(parts)`. */
  function Join(parts: seq<string>, sep: string): (r: string)
    ensures |parts| == 0 ==> r == ""
    ensures |parts| > 0 ==> parts[0] <= r
  {
    if |parts| == 0 then ""
    else if |parts| == 1 then parts[0]
    else
      var r := parts[0] + sep + Join(parts[1..], sep);
      assert r == parts[0] + (sep + Join(parts[1..], sep));
      r
  }

  /**
   * Where part `i` starts in `Join(parts, sep)`: after each earlier part and
   * one separator per earlier part.
   */
  function Offset(parts: seq<string>, sep: string, i: nat): nat
    requires i <= |parts|
  {
    if i == 0 then 0 else Offset(parts, sep, i - 1) + |parts[i - 1]| + |sep|
  }

  /** Offsets into a join are those into the join of the tail, moved past the head and a separator. */
  lemma {:induction false} OffsetTail(parts: seq<string>, sep: string, i: nat)
    requires 0 < i <= |parts|
    ensures Offset(parts, sep, i) == |parts[0]| + |sep| + Offset(parts[1..], sep, i - 1)
  {
    if i > 1 {
      OffsetTail(parts, sep, i - 1);
      assert parts[1..][i - 2] == parts[i - 1];
    }
  }

  /** An occurrence in `y` is an occurrence in `x + y`, moved by `|x|`. */
  lemma OccursShift(x: string, y: string, pat: string, j: int)
    requires OccursAt(y, pat, j)
    ensures OccursAt(x + y, pat, |x| + j)
  {
    assert (x + y)[|x| + j..|x| + j + |pat|] == y[j..j + |pat|];
  }

  /** An occurrence in `x` is an occurrence in `x + y` at the same place. */
  lemma OccursPrefix(x: string, y: string, pat: string, j: int)
    requires OccursAt(x, pat, j)
    ensures OccursAt(x + y, pat, j)
  {
    assert (x + y)[j..j + |pat|] == x[j..j + |pat|];
  }

  /** A join of two or more parts is the first part, a separator, and the join of the rest. */
  lemma JoinCons(parts: seq<string>, sep: string)
    requires |parts| > 1
    ensures Join(parts, sep) == (parts[0] + sep) + Join(parts[1..], sep)
  {
  }

  /** The joined text ends right after the last part. */
  lemma {:induction false} JoinLength(parts: seq<string>, sep: string)
    requires |parts| > 0
    ensures |Join(parts, sep)| == Offset(parts, sep, |parts| - 1) + |parts[|parts| - 1]|
  {
    if |parts| > 1 {
      var tail := parts[1..];
      JoinCons(parts, sep);
      JoinLength(tail, sep);
      OffsetTail(parts, sep, |parts| - 1);
      assert tail[|tail| - 1] == parts[|parts| - 1];
    }
  }

  /** Part `i` occurs in the joined text at its offset. */
  lemma {:induction false} JoinPart(parts: seq<string>, sep: string, i: nat)
    requires i < |parts|
    ensures OccursAt(Join(parts, sep), parts[i], Offset(parts, sep, i))
  {
    var r := Join(parts, sep);
    if i == 0 {
      assert r[0..|parts[0]|] == parts[0];
    } else {
      var tail, head := parts[1..], parts[0] + sep;
      JoinCons(parts, sep);
      JoinPart(tail, sep, i - 1);
      OffsetTail(parts, sep, i);
      assert tail[i - 1] == parts[i];
      OccursShift(head, Join(tail, sep), parts[i], Offset(tail, sep, i - 1));
    }
  }

  /** A separator follows every part but the last. */
  lemma {:induction false} JoinSep(parts: seq<string>, sep: string, i: nat)
    requires i + 1 < |parts|
    ensures OccursAt(Join(parts, sep), sep, Offset(parts, sep, i) + |parts[i]|)
  {
    var tail, head := parts[1..], parts[0] + sep;
    JoinCons(parts, sep);
    if i == 0 {
      assert OccursAt(head, sep, |parts[0]|) by { assert head[|parts[0]|..|parts[0]| + |sep|] == sep; }
      OccursPrefix(head, Join(tail, sep), sep, |parts[0]|);
    } else {
      JoinSep(tail, sep, i - 1);
      OffsetTail(parts, sep, i);
      assert tail[i - 1] == parts[i];
      OccursShift(head, Join(tail, sep), sep, Offset(tail, sep, i - 1) + |tail[i - 1]|);
    }
  }

  /**
   * `r` is laid out as `parts` separated by `sep`: part `i` sits at
   * `Offset(parts, sep, i)`, a separator follows every part but the last, and
   * `r` ends with the last part. Parts and separators tile `r`, so this
   * determines it.
   */
  predicate LaidOut(r: string, parts: seq<string>, sep: string)
    requires |parts| > 0
  {
    && |r| == Offset(parts, sep, |parts| - 1) + |parts[|parts| - 1]|
    && (forall i :: 0 <= i < |parts| ==> OccursAt(r, parts[i], Offset(parts, sep, i)))
    && (forall i :: 0 <= i < |parts| - 1 ==> OccursAt(r, sep, Offset(parts, sep, i) + |parts[i]|))
  }

  /** Three parts join as the first, a separator, the second, a separator, the third. */
  lemma JoinThree(a: string, b: string, c: string, sep: string)
    ensures Join([a, b, c], sep) == a + sep + b + sep + c
  {
    JoinCons([a, b, c], sep);
    JoinCons([b, c], sep);
    assert [a, b, c][1..] == [b, c] && [b, c][1..] == [c];
  }

  /** `Join(parts, sep)` is laid out as `parts` separated by `sep`. */
  lemma JoinLayout(parts: seq<string>, sep: string)
    requires |parts| > 0
    ensures LaidOut(Join(parts, sep), parts, sep)
  {
    JoinLength(parts, sep);
    forall i | 0 <= i < |parts| ensures OccursAt(Join(parts, sep), parts[i], Offset(parts, sep, i)) {
      JoinPart(parts, sep, i);
    }
    forall i | 0 <= i < |parts| - 1 ensures OccursAt(Join(parts, sep), sep, Offset(parts, sep, i) + |parts[i]|) {
      JoinSep(parts, sep, i);
    }
  }

  /**
   * Python's `s.split(sep)` for a one-character separator: the pieces between
   * consecutive separators, empty ones included, always at least one piece.
   */
  function Split(s: string, sep: char): (r: seq<string>)
    ensures |r| >= 1
    ensures forall k :: 0 <= k < |r| ==> sep !in r[k]
    ensures Join(r, [sep]) == s
  {
    if |s| == 0 then
      [""]
    else
      var rest := Split(s[1..], sep);
      if s[0] == sep then
        assert Join([""] + rest, [sep]) == "" + [sep] + Join(rest, [sep]);
        assert s == [sep] + s[1..];
        [""] + rest
      else
        var r := [[s[0]] + rest[0]] + rest[1..];
        assert s == [s[0]] + s[1..];
        assert |rest| > 1 ==> Join(rest, [sep]) == rest[0] + [sep] + Join(rest[1..], [sep]);
        assert r[1..] == rest[1..];
        r
  }

  /** A text that neither starts nor ends with whitespace is its own strip. */
  lemma StripTrimmed(s: string)
    requires s == [] || (!IsSpace(s[0]) && !IsSpace(s[|s| - 1]))
    ensures Strip(s) == s
  {
    StripUnique(s, 0, s);
  }

  /** Stripping twice is stripping once. */
  lemma StripIdempotent(s: string)
    ensures Strip(Strip(s)) == Strip(s)
  {
    StripTrimmed(Strip(s));
  }

  /** Lower-casing twice is lower-casing once. */
  lemma LowerIdempotent(s: string)
    ensures Lower(Lower(s)) == Lower(s)
  {
  }

  /** A piece without the separator splits into itself. */
  lemma SplitNoSep(a: string, sep: char)
    requires sep !in a
    ensures Split(a, sep) == [a]
  {
    if |a| > 0 {
      var t := a[1..];
      assert a[0] != sep by { assert a[0] in a; }
      assert sep !in t by { assert forall c :: c in t ==> c in a; }
      SplitNoSep(t, sep);
      assert Split(a, sep) == [[a[0]] + t];
      assert [a[0]] + t == a;
    }
  }

  /** Splitting at the first separator peels off the leading piece. */
  lemma {:induction false} SplitCons(a: string, b: string, sep: char)
    requires sep !in a
    ensures Split(a + [sep] + b, sep) == [a] + Split(b, sep)
  {
    if |a| == 0 {
      assert a + [sep] + b == [sep] + b;
      assert ([sep] + b)[1..] == b;
    } else {
      assert (a + [sep] + b)[1..] == a[1..] + [sep] + b;
      assert forall c :: c in a[1..] ==> c in a;
      SplitCons(a[1..], b, sep);
      assert [a[0]] + a[1..] == a;
    }
  }

  /** `split` undoes `join` when no piece holds the separator. */
  lemma {:induction false} SplitJoin(parts: seq<string>, sep: char)
    requires |parts| >= 1
    requires forall k :: 0 <= k < |parts| ==> sep !in parts[k]
    ensures Split(Join(parts, [sep]), sep) == parts
  {
    if |parts| == 1 {
      SplitNoSep(parts[0], sep);
    } else {
      SplitJoin(parts[1..], sep);
      SplitCons(parts[0], Join(parts[1..], [sep]), sep);
      assert [parts[0]] + parts[1..] == parts;
    }
  }

  /** Every piece of a blank text is blank. */
  lemma {:induction false} SplitBlank(s: string, sep: char)
    requires IsBlank(s)
    ensures forall k :: 0 <= k < |Split(s, sep)| ==> IsBlank(Split(s, sep)[k])
  {
    if |s| > 0 {
      assert IsBlank(s[1..]);
      SplitBlank(s[1..], sep);
      var rest := Split(s[1..], sep);
      if s[0] != sep {
        BlankConcat([s[0]], rest[0]);
      }
    }
  }

  /** Lower-casing never turns a non-space into a space or back. */
  lemma LowerCharSpace(c: char)
    ensures IsSpace(LowerChar(c)) <==> IsSpace(c)
  {
  }

  /** Lower-casing a slice is slicing the lower-cased text. */
  lemma LowerSlice(s: string, lo: int, hi: int)
    requires 0 <= lo <= hi <= |s|
    ensures Lower(s[lo..hi]) == Lower(s)[lo..hi]
  {
    assert forall i :: 0 <= i < hi - lo ==> Lower(s[lo..hi])[i] == LowerChar(s[lo + i]) == Lower(s)[lo..hi][i];
  }

  /** Lower-casing keeps a run of whitespace a run of whitespace. */
  lemma LowerSpaces(s: string, lo: int, hi: int)
    requires 0 <= lo <= hi <= |s| && SpacesBetween(s, lo, hi)
    ensures SpacesBetween(Lower(s), lo, hi)
  {
    forall i | lo <= i < hi ensures IsSpace(Lower(s)[i]) {
      LowerCharSpace(s[i]);
    }
  }

  /** Lower-casing keeps a text without surrounding whitespace so. */
  lemma LowerTrimmed(r: string)
    requires r == [] || (!IsSpace(r[0]) && !IsSpace(r[|r| - 1]))
    ensures var v := Lower(r); v == [] || (!IsSpace(v[0]) && !IsSpace(v[|v| - 1]))
  {
    if r != [] {
      LowerCharSpace(r[0]);
      LowerCharSpace(r[|r| - 1]);
    }
  }

  /** Stripping and lower-casing commute. */
  lemma StripLower(s: string)
    ensures Strip(Lower(s)) == Lower(Strip(s))
  {
    var k, r := LeftCut(s), Strip(s);
    var n := |r|;
    assert k + n <= |s| && r == s[k..k + n];
    var u, v := Lower(s), Lower(r);
    assert |u| == |s| && |v| == n;
    LowerSpaces(s, 0, k);
    LowerSpaces(s, k + n, |s|);
    LowerSlice(s, k, k + n);
    assert v == u[k..k + n];
    LowerTrimmed(r);
    StripUnique(u, k, v);
  }

  /** Leading whitespace does not change what `strip()` returns. */
  lemma StripPadLeft(a: string, s: string)
    requires IsBlank(a)
    ensures Strip(a + s) == Strip(s)
  {
    var k, r := LeftCut(s), Strip(s);
    ShiftSlice(a, s, k, |r|);
    ShiftSpaces(a, s, k + |r|, |s|);
    LeadingSpaces(a, s, k);
    StripUnique(a + s, |a| + k, r);
  }

  /** A slice of `s` reappears, shifted by `|a|`, in `a + s`. */
  lemma ShiftSlice(a: string, s: string, k: nat, n: nat)
    requires k + n <= |s|
    ensures (a + s)[|a| + k..|a| + k + n] == s[k..k + n]
  {
    assert forall i :: k <= i < k + n ==> (a + s)[|a| + i] == s[i];
  }

  /** Whitespace in `s` stays whitespace, shifted by `|a|`, in `a + s`. */
  lemma ShiftSpaces(a: string, s: string, lo: nat, hi: nat)
    requires lo <= hi <= |s| && SpacesBetween(s, lo, hi)
    ensures SpacesBetween(a + s, |a| + lo, |a| + hi)
  {
    forall i | |a| + lo <= i < |a| + hi ensures IsSpace((a + s)[i]) {
      assert (a + s)[i] == s[i - |a|];
    }
  }

  /** Blank `a` followed by `k` spaces of `s` is all whitespace in `a + s`. */
  lemma LeadingSpaces(a: string, s: string, k: nat)
    requires IsBlank(a) && k <= |s| && SpacesBetween(s, 0, k)
    ensures SpacesBetween(a + s, 0, |a| + k)
  {
    forall i | 0 <= i < |a| + k ensures IsSpace((a + s)[i]) {
      if i < |a| { assert (a + s)[i] == a[i]; } else { assert (a + s)[i] == s[i - |a|]; }
    }
  }

  /** Trailing whitespace does not change what `strip()` returns. */
  lemma StripPadRight(s: string, b: string)
    requires IsBlank(b)
    ensures Strip(s + b) == Strip(s)
  {
    var k, r := LeftCut(s), Strip(s);
    var w := s + b;
    assert forall i :: 0 <= i < |s| ==> w[i] == s[i];
    assert r == w[k..k + |r|] by {
      assert forall i :: 0 <= i < |r| ==> r[i] == s[k + i] == w[k + i];
    }
    assert SpacesBetween(w, k + |r|, |w|) by {
      forall i | k + |r| <= i < |w| ensures IsSpace(w[i]) {
        if i >= |s| { assert w[i] == b[i - |s|]; }
      }
    }
    StripUnique(w, k, r);
  }

  /** Whitespace around a text does not change what `strip()` returns. */
  lemma StripPadding(a: string, s: string, b: string)
    requires IsBlank(a) && IsBlank(b)
    ensures Strip(a + s + b) == Strip(s)
  {
    ConcatAssoc(a, s, b);
    StripPadRight(s, b);
    StripPadLeft(a, s + b);
  }

  lemma ConcatAssoc(x: string, y: string, z: string)
    ensures x + y + z == x + (y + z)
  {
  }
}
