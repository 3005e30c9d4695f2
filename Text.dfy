/**
 * The string operations the list screens apply to user input and to record
 * fields: `String.prototype.trim`, ASCII lower-casing and `includes`.
 */
module Text {

  /** The characters `trim` removes: ECMAScript WhiteSpace and LineTerminator. */
  predicate IsSpace(c: char)
  {
    || c == '\t' || c == '\n' || c == '\U{B}' || c == '\U{C}' || c == '\r' || c == ' '
    || c == '\U{A0}' || c == '\U{1680}' || ('\U{2000}' <= c <= '\U{200A}')
    || c == '\U{2028}' || c == '\U{2029}' || c == '\U{202F}' || c == '\U{205F}'
    || c == '\U{3000}' || c == '\U{FEFF}'
  }

  /** True when every character of `s` is white space (the empty string included). */
  predicate IsBlank(s: string)
  {
    forall i :: 0 <= i < |s| ==> IsSpace(s[i])
  }

  /** Removes the longest all-space prefix. */
  function TrimStart(s: string): string
    decreases |s|
  {
    if s != [] && IsSpace(s[0]) then TrimStart(s[1..]) else s
  }

  /** Removes the longest all-space suffix. */
  function TrimEnd(s: string): string
    decreases |s|
  {
    if s != [] && IsSpace(s[|s| - 1]) then TrimEnd(s[..|s| - 1]) else s
  }

  /** `s.trim()`: a contiguous slice of `s` with no white space at either end. */
  function Trim(s: string): string
  {
    TrimEnd(TrimStart(s))
  }

  /** `TrimStart` keeps a suffix that starts with a non-space and drops only white space. */
  lemma {:induction false} TrimStartSpec(s: string)
    ensures var r := TrimStart(s);
            && |r| <= |s| && r == s[|s| - |r|..]
            && (r == [] || !IsSpace(r[0]))
            && IsBlank(s[..|s| - |r|])
    decreases |s|
  {
    if s != [] && IsSpace(s[0]) {
      TrimStartSpec(s[1..]);
      var r := TrimStart(s);
      var k := |s| - |r|;
      assert s[1..][..k - 1] == s[1..k];
      forall i | 0 <= i < k ensures IsSpace(s[..k][i]) {
        if i > 0 {
          assert s[..k][i] == s[1..][..k - 1][i - 1];
        }
      }
    } else {
      assert s[..0] == [];
    }
  }

  /** `TrimEnd` keeps a prefix that ends with a non-space and drops only white space. */
  lemma {:induction false} TrimEndSpec(s: string)
    ensures var r := TrimEnd(s);
            && |r| <= |s| && r == s[..|r|]
            && (r == [] || !IsSpace(r[|r| - 1]))
            && IsBlank(s[|r|..])
    decreases |s|
  {
    if s != [] && IsSpace(s[|s| - 1]) {
      var init := s[..|s| - 1];
      TrimEndSpec(init);
      var r := TrimEnd(s);
      assert r == init[..|r|];
      forall i | |r| <= i < |s| ensures IsSpace(s[i]) {
        if i < |s| - 1 {
          assert s[i] == init[|r|..][i - |r|];
        }
      }
    } else {
      assert s[|s|..] == [];
    }
  }

  /** `Trim` yields a slice of its input that starts and ends with a non-space. */
  lemma TrimSlice(s: string) returns (i: nat, j: nat)
    ensures i <= j <= |s| && Trim(s) == s[i..j]
    ensures Trim(s) != [] ==> !IsSpace(Trim(s)[0]) && !IsSpace(Trim(s)[|Trim(s)| - 1])
    ensures IsBlank(s[..i]) && IsBlank(s[j..])
  {
    var t := TrimStart(s);
    var u := TrimEnd(t);
    TrimStartSpec(s);
    TrimEndSpec(t);
    i := |s| - |t|;
    j := i + |u|;
    assert t == s[i..];
    assert u == t[..|u|];
    assert s[i..j] == u;
    assert s[j..] == t[|u|..];
  }

  /** A string trims to empty exactly when it is blank: the `!x.trim()` tests. */
  lemma TrimEmptyIffBlank(s: string)
    ensures Trim(s) == [] <==> IsBlank(s)
  {
    var i, j := TrimSlice(s);
    if Trim(s) == [] {
      forall k | 0 <= k < |s| ensures IsSpace(s[k]) {
        if k < i { assert s[..i][k] == s[k]; } else { assert s[j..][k - j] == s[k]; }
      }
    } else {
      assert Trim(s)[0] == s[i];
    }
  }

  /** Trimming a string that has no white space at either end changes nothing. */
  lemma TrimTrimmed(s: string)
    requires s == [] || (!IsSpace(s[0]) && !IsSpace(s[|s| - 1]))
    ensures Trim(s) == s
  {
    TrimStartSpec(s);
    TrimEndSpec(TrimStart(s));
  }

  /** `trim` is idempotent. */
  lemma TrimIdempotent(s: string)
    ensures Trim(Trim(s)) == Trim(s)
  {
    var _, _ := TrimSlice(s);
    TrimTrimmed(Trim(s));
  }

  /** ASCII lower-casing of one character. */
  function LowerChar(c: char): char
  {
    if 'A' <= c <= 'Z' then (c as int - 'A' as int + 'a' as int) as char else c
  }

  /** `s.toLowerCase()`, restricted to the ASCII letters. */
  function ToLower(s: string): (r: string)
    ensures |r| == |s|
    ensures forall i :: 0 <= i < |r| ==> !('A' <= r[i] <= 'Z')
  {
    seq(|s|, i requires 0 <= i < |s| => LowerChar(s[i]))
  }

  /** `q` occurs in `s` starting at index `i`. */
  ghost predicate OccursAt(q: string, s: string, i: int)
  {
    0 <= i && i + |q| <= |s| && s[i..i + |q|] == q
  }

  /** `s.startsWith(q)`. */
  predicate StartsWith(s: string, q: string)
  {
    |q| <= |s| && s[..|q|] == q
  }

  /** `s.includes(q)`: a scan of the start positions of `s`. */
  function Contains(s: string, q: string): bool
    decreases |s|
  {
    StartsWith(s, q) || (s != [] && Contains(s[1..], q))
  }

  /** `Contains` holds exactly when `q` occurs somewhere in `s`. */
  lemma {:induction false} ContainsIffOccurs(s: string, q: string)
    ensures Contains(s, q) <==> exists i :: OccursAt(q, s, i)
    decreases |s|
  {
    if StartsWith(s, q) {
      assert OccursAt(q, s, 0);
    } else if s != [] {
      ContainsIffOccurs(s[1..], q);
      if exists i :: OccursAt(q, s[1..], i) {
        var i :| OccursAt(q, s[1..], i);
        assert s[i + 1..i + 1 + |q|] == s[1..][i..i + |q|];
        assert OccursAt(q, s, i + 1);
      }
      if exists i :: OccursAt(q, s, i) {
        var i :| OccursAt(q, s, i);
        assert i != 0;
        assert s[1..][i - 1..i - 1 + |q|] == s[i..i + |q|];
        assert OccursAt(q, s[1..], i - 1);
      }
    }
  }
}
