/**
 * The string operations the scripts rely on: ASCII case folding
 * (`toLowerCase` / `lower`), substring search (`includes` / `in`),
 * whitespace stripping (`trim` / `strip` / `lstrip`), and splitting and
 * joining on a separator.
 */
module Text {

  // ---------------------------------------------------------------------------
  // Case folding. Only the ASCII letters are folded here; the Unicode case
  // mappings of `toLowerCase` and `str.lower` are not part of this model.
  // ---------------------------------------------------------------------------

  predicate IsUpper(c: char) {
    'A' <= c <= 'Z'
  }

  function LowerChar(c: char): (r: char)
    ensures !IsUpper(r)
    ensures IsUpper(c) ==> r as int == c as int + 32
    ensures !IsUpper(c) ==> r == c
  {
    if IsUpper(c) then (c as int + 32) as char else c
  }

  /** `toLowerCase()` / `lower()`: keeps the length and leaves no upper-case letter. */
  function Lower(s: string): (r: string)
    ensures |r| == |s|
    ensures forall i | 0 <= i < |s| :: !IsUpper(r[i])
  {
    seq(|s|, i requires 0 <= i < |s| => LowerChar(s[i]))
  }

  /** Lower-casing twice is lower-casing once. */
  lemma LowerIdempotent(s: string)
    ensures Lower(Lower(s)) == Lower(s)
  {
    assert forall i | 0 <= i < |s| :: LowerChar(LowerChar(s[i])) == LowerChar(s[i]);
  }

  // ---------------------------------------------------------------------------
  // Substring search.
  // ---------------------------------------------------------------------------

  predicate IsPrefix(p: string, s: string) {
    |p| <= |s| && s[..|p|] == p
  }

  /** `s.includes(sub)` in JavaScript, `sub in s` in Python. */
  predicate Contains(s: string, sub: string)
    decreases |s|
  {
    IsPrefix(sub, s) || (s != [] && Contains(s[1..], sub))
  }

  /** `sub` occurs in `s` starting at position `i`. */
  predicate OccursAt(s: string, sub: string, i: int) {
    0 <= i <= |s| - |sub| && s[i..i + |sub|] == sub
  }

  /** Contains finds `sub` exactly when it occurs at some position of `s`. */
  lemma {:induction false} ContainsIffOccurs(s: string, sub: string)
    ensures Contains(s, sub) <==> exists i :: OccursAt(s, sub, i)
    decreases |s|
  {
    if IsPrefix(sub, s) {
      assert OccursAt(s, sub, 0);
    } else if s == [] {
    } else {
      ContainsIffOccurs(s[1..], sub);
      if exists i :: OccursAt(s, sub, i) {
        var i :| OccursAt(s, sub, i);
        assert i != 0;
        assert OccursAt(s[1..], sub, i - 1) by {
          assert s[1..][i - 1..i - 1 + |sub|] == s[i..i + |sub|];
        }
      }
      if Contains(s[1..], sub) {
        var j :| OccursAt(s[1..], sub, j);
        assert OccursAt(s, sub, j + 1) by {
          assert s[1..][j..j + |sub|] == s[j + 1..j + 1 + |sub|];
        }
      }
    }
  }

  /** Every string contains the empty string. */
  lemma ContainsEmpty(s: string)
    ensures Contains(s, "")
  {
    assert IsPrefix("", s);
  }

  /** A string that contains `sub` contains every prefix of `sub`. */
  lemma {:induction false} ContainsPrefixOf(s: string, sub: string, n: nat)
    requires n <= |sub| && Contains(s, sub)
    ensures Contains(s, sub[..n])
    decreases |s|
  {
    if IsPrefix(sub, s) {
      assert s[..n] == s[..|sub|][..n];
      assert IsPrefix(sub[..n], s);
    } else {
      ContainsPrefixOf(s[1..], sub, n);
    }
  }

  /** Only the empty string occurs in the empty string. */
  lemma NothingInEmpty(sub: string)
    requires sub != ""
    ensures !Contains("", sub)
  {
  }

  // ---------------------------------------------------------------------------
  // Whitespace. JavaScript's `trim` and Python's `strip` disagree on a few
  // characters (U+FEFF is JavaScript-only; U+001C..U+001F and U+0085 are
  // Python-only), so the two sets are kept apart.
  // ---------------------------------------------------------------------------

  datatype Flavor = Js | Py

  predicate IsSpace(k: Flavor, c: char) {
    c == ' ' || c == '\t' || c == '\n' || c == '\r' || c == '\U{000B}' || c == '\U{000C}'
    || c == '\U{00A0}' || c == '\U{1680}' || ('\U{2000}' <= c <= '\U{200A}')
    || c == '\U{2028}' || c == '\U{2029}' || c == '\U{202F}' || c == '\U{205F}' || c == '\U{3000}'
    || (k == Js && c == '\U{FEFF}')
    || (k == Py && ('\U{001C}' <= c <= '\U{001F}' || c == '\U{0085}'))
  }

  /** `trimStart` / `lstrip`: the longest suffix of `s` not starting with a space. */
  function StripStart(k: Flavor, s: string): (r: string)
    ensures |r| <= |s| && r == s[|s| - |r|..]
    ensures r != [] ==> !IsSpace(k, r[0])
    ensures forall i | 0 <= i < |s| - |r| :: IsSpace(k, s[i])
  {
    if s != [] && IsSpace(k, s[0]) then StripStart(k, s[1..]) else s
  }

  /** `trimEnd` / `rstrip`: the longest prefix of `s` not ending with a space. */
  function StripEnd(k: Flavor, s: string): (r: string)
    ensures |r| <= |s| && r == s[..|r|]
    ensures r != [] ==> !IsSpace(k, r[|r| - 1])
    ensures forall i | |r| <= i < |s| :: IsSpace(k, s[i])
  {
    if s != [] && IsSpace(k, s[|s| - 1]) then StripEnd(k, s[..|s| - 1]) else s
  }

  /** `trim` / `strip`. */
  function Strip(k: Flavor, s: string): string {
    StripEnd(k, StripStart(k, s))
  }

  /** Stripping leaves a contiguous slice of the input with no space at either end. */
  lemma StripSlice(k: Flavor, s: string)
    ensures exists a, b | 0 <= a <= b <= |s| :: Strip(k, s) == s[a..b]
    ensures Strip(k, s) != [] ==> !IsSpace(k, Strip(k, s)[0]) && !IsSpace(k, Strip(k, s)[|Strip(k, s)| - 1])
  {
    var t := StripStart(k, s);
    var a := |s| - |t|;
    var r := StripEnd(k, t);
    assert Strip(k, s) == r;
    assert 0 <= a <= a + |r| <= |s| && r == s[a..a + |r|];
    if r != [] {
      assert r[0] == t[0];
    }
  }

  /** A string strips to the empty string exactly when it is all whitespace. */
  lemma StripEmptyIff(k: Flavor, s: string)
    ensures Strip(k, s) == [] <==> forall i | 0 <= i < |s| :: IsSpace(k, s[i])
  {
  }

  /** Stripping twice is stripping once. */
  lemma StripIdempotent(k: Flavor, s: string)
    ensures Strip(k, Strip(k, s)) == Strip(k, s)
  {
    var r := Strip(k, s);
    if r != [] {
      StripSlice(k, s);
      assert StripStart(k, r) == r;
    }
  }

  /** The number of leading whitespace characters, `len(s) - len(s.lstrip())`. */
  function LeadingSpaces(k: Flavor, s: string): (n: nat)
    ensures n <= |s|
    ensures forall i | 0 <= i < n :: IsSpace(k, s[i])
    ensures n < |s| ==> !IsSpace(k, s[n])
  {
    |s| - |StripStart(k, s)|
  }

  /** `n` copies of `unit`, as Python's `unit * n`. */
  function Repeat(unit: string, n: nat): (r: string)
    ensures |r| == n * |unit|
  {
    if n == 0 then "" else Repeat(unit, n - 1) + unit
  }

  /** Copies of a unit made of one character are made of that character. */
  lemma {:induction false} RepeatUniform(unit: string, n: nat, c: char)
    requires forall i | 0 <= i < |unit| :: unit[i] == c
    ensures forall i | 0 <= i < |Repeat(unit, n)| :: Repeat(unit, n)[i] == c
  {
    if n > 0 {
      RepeatUniform(unit, n - 1, c);
      var r := Repeat(unit, n);
      assert r == Repeat(unit, n - 1) + unit;
    }
  }

  /** Stripping the front of `p + t`, where `p` is all whitespace and `t`
    * does not start with whitespace, leaves `t`. */
  lemma {:induction false} StripStartAfterSpaces(k: Flavor, p: string, t: string)
    requires forall i | 0 <= i < |p| :: IsSpace(k, p[i])
    requires t != [] ==> !IsSpace(k, t[0])
    ensures StripStart(k, p + t) == t
    decreases |p|
  {
    if p != [] {
      assert (p + t)[0] == p[0];
      assert (p + t)[1..] == p[1..] + t;
      StripStartAfterSpaces(k, p[1..], t);
    }
  }

  // ---------------------------------------------------------------------------
  // Splitting on a one-character separator and joining with a separator.
  // ---------------------------------------------------------------------------

  /** `parts.join(sep)` / `sep.join(parts)`. */
  function Join(parts: seq<string>, sep: string): string {
    if |parts| == 0 then ""
    else if |parts| == 1 then parts[0]
    else Join(parts[..|parts| - 1], sep) + sep + parts[|parts| - 1]
  }

  /** `s.split(c)` in both languages: the pieces between occurrences of `c`. */
  function Split(s: string, c: char): (r: seq<string>)
    ensures |r| >= 1
  {
    if s == [] then [""]
    else
      var prev := Split(s[..|s| - 1], c);
      if s[|s| - 1] == c then prev + [""]
      else prev[..|prev| - 1] + [prev[|prev| - 1] + [s[|s| - 1]]]
  }

  /** No piece holds the separator. */
  lemma {:induction false} SplitPiecesFree(s: string, c: char)
    ensures forall i | 0 <= i < |Split(s, c)| :: c !in Split(s, c)[i]
  {
    if s != [] {
      var prev := Split(s[..|s| - 1], c);
      SplitPiecesFree(s[..|s| - 1], c);
      if s[|s| - 1] != c {
        var r := Split(s, c);
        forall i | 0 <= i < |r| ensures c !in r[i] {
          if i < |r| - 1 {
            assert r[i] == prev[i];
          } else {
            assert r[i] == prev[|prev| - 1] + [s[|s| - 1]];
            assert c !in prev[|prev| - 1];
          }
        }
      }
    }
  }

  function Occurrences(s: string, c: char): nat {
    if s == [] then 0 else Occurrences(s[..|s| - 1], c) + (if s[|s| - 1] == c then 1 else 0)
  }

  /** Joining the pieces back with the separator gives the original string. */
  lemma {:induction false} JoinSplit(s: string, c: char)
    ensures Join(Split(s, c), [c]) == s
  {
    if s != [] {
      var init := s[..|s| - 1];
      var prev := Split(init, c);
      JoinSplit(init, c);
      assert s == init + [s[|s| - 1]];
      if s[|s| - 1] == c {
        JoinSnoc(prev, "", [c]);
      } else {
        JoinExtendLast(prev, [s[|s| - 1]], [c]);
      }
    }
  }

  lemma JoinSnoc(parts: seq<string>, x: string, sep: string)
    requires |parts| >= 1
    ensures Join(parts + [x], sep) == Join(parts, sep) + sep + x
  {
    assert (parts + [x])[..|parts|] == parts;
  }

  /** Extending the last piece extends the join by the same characters. */
  lemma JoinExtendLast(parts: seq<string>, y: string, sep: string)
    requires |parts| >= 1
    ensures Join(parts[..|parts| - 1] + [parts[|parts| - 1] + y], sep) == Join(parts, sep) + y
  {
    var q := parts[..|parts| - 1] + [parts[|parts| - 1] + y];
    if |parts| > 1 {
      assert q[..|q| - 1] == parts[..|parts| - 1];
    }
  }

  /** There is one more piece than there are separators. */
  lemma {:induction false} SplitCount(s: string, c: char)
    ensures |Split(s, c)| == Occurrences(s, c) + 1
  {
    if s != [] {
      SplitCount(s[..|s| - 1], c);
    }
  }

  /** Splitting a join whose pieces are free of the separator gives the pieces back. */
  lemma {:induction false} SplitJoin(parts: seq<string>, c: char)
    requires |parts| >= 1
    requires forall i | 0 <= i < |parts| :: c !in parts[i]
    ensures Split(Join(parts, [c]), c) == parts
  {
    if |parts| == 1 {
      SplitNoSeparator(parts[0], c);
    } else {
      var init, last := parts[..|parts| - 1], parts[|parts| - 1];
      forall i | 0 <= i < |init| ensures c !in init[i] {
        assert init[i] == parts[i];
      }
      SplitJoin(init, c);
      assert Join(parts, [c]) == Join(init, [c]) + [c] + last;
      SplitAppend(Join(init, [c]), last, c);
      assert init + [last] == parts;
    }
  }

  /** A string without the separator is one piece. */
  lemma {:induction false} SplitNoSeparator(s: string, c: char)
    requires c !in s
    ensures Split(s, c) == [s]
  {
    if s != [] {
      var init := s[..|s| - 1];
      assert c !in init by {
        forall i | 0 <= i < |init| ensures init[i] != c { assert init[i] == s[i]; }
      }
      SplitNoSeparator(init, c);
      assert init + [s[|s| - 1]] == s;
    }
  }

  /** Appending a separator and a separator-free piece adds that piece. */
  lemma {:induction false} SplitAppend(a: string, b: string, c: char)
    requires c !in b
    ensures Split(a + [c] + b, c) == Split(a, c) + [b]
    decreases |b|
  {
    if b == [] {
      assert (a + [c] + b)[..|a + [c] + b| - 1] == a;
    } else {
      var b0 := b[..|b| - 1];
      assert (a + [c] + b)[..|a + [c] + b| - 1] == a + [c] + b0;
      SplitAppend(a, b0, c);
      assert b0 + [b[|b| - 1]] == b;
    }
  }

  /** The piece after the last separator, `parts[parts.length - 1]` of a split. */
  function LastPiece(s: string, c: char): string {
    var parts := Split(s, c);
    parts[|parts| - 1]
  }

  /** The last piece is a separator-free suffix of `s`, preceded by `c` whenever `c` occurs. */
  lemma {:induction false} LastPieceSuffix(s: string, c: char)
    ensures c !in LastPiece(s, c)
    ensures |LastPiece(s, c)| <= |s| && LastPiece(s, c) == s[|s| - |LastPiece(s, c)|..]
    ensures c in s ==> |LastPiece(s, c)| < |s| && s[|s| - |LastPiece(s, c)| - 1] == c
    ensures c !in s ==> LastPiece(s, c) == s
  {
    if s != [] {
      var init := s[..|s| - 1];
      LastPieceSuffix(init, c);
      if c !in s {
        SplitNoSeparator(s, c);
      } else if s[|s| - 1] != c {
        assert c in init;
        var lp := LastPiece(init, c);
        assert s[|s| - |lp| - 1..] == init[|init| - |lp|..] + [s[|s| - 1]];
      }
    }
  }

  /** The first `n` characters, or the whole string when it is shorter. */
  function Take(s: string, n: nat): (r: string)
    ensures |r| == if |s| <= n then |s| else n
    ensures IsPrefix(r, s)
  {
    if |s| <= n then s else s[..n]
  }
}
