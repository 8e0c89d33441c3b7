/**
 * String helpers with the meaning Python and JavaScript give them:
 * substring membership (`in`, `includes`), `str.strip()` and the
 * lower-casing used for case-insensitive matching.
 */
module Text {

  /** `needle in s` in Python, `s.includes(needle)` in JavaScript. */
  predicate Contains(s: string, needle: string)
    decreases |s|
  {
    needle <= s || (|s| > 0 && Contains(s[1..], needle))
  }

  /** `needle` occurs in `s` starting at position `i`. */
  predicate OccursAt(s: string, needle: string, i: int)
  {
    0 <= i <= |s| - |needle| && s[i..i + |needle|] == needle
  }

  /** Position-wise reading of Contains: `needle` occurs somewhere in `s`. */
  lemma {:induction false} ContainsIff(s: string, needle: string)
    ensures Contains(s, needle) <==> exists i :: OccursAt(s, needle, i)
    decreases |s|
  {
    if needle <= s {
      assert OccursAt(s, needle, 0);
    } else if |s| > 0 {
      ContainsIff(s[1..], needle);
      if Contains(s[1..], needle) {
        var i :| OccursAt(s[1..], needle, i);
        OccursShift(s, needle, i + 1);
      } else {
        forall i | 0 <= i <= |s| - |needle|
          ensures !OccursAt(s, needle, i)
        {
          if i == 0 {
            assert s[..|needle|] != needle;
          } else {
            OccursShift(s, needle, i);
          }
        }
      }
    } else {
      assert |needle| > 0;
    }
  }

  /** An occurrence at `i > 0` is an occurrence at `i - 1` in the tail. */
  lemma OccursShift(s: string, needle: string, i: int)
    requires 0 < i && |s| > 0
    ensures OccursAt(s, needle, i) <==> OccursAt(s[1..], needle, i - 1)
  {
    if 0 <= i <= |s| - |needle| {
      var a, b := s[i..i + |needle|], s[1..][i - 1..i - 1 + |needle|];
      assert |a| == |b|;
      forall k | 0 <= k < |a| ensures a[k] == b[k] {
        assert a[k] == s[i + k];
        assert b[k] == s[1..][i - 1 + k];
      }
      assert a == b;
    }
  }

  /** The empty string is in every string, as `'' in s` is in Python. */
  lemma EmptyIsEverywhere(s: string)
    ensures Contains(s, "")
  {
  }

  /** ASCII lower-casing of one character. */
  function LowerChar(c: char): char
  {
    if 'A' <= c <= 'Z' then (c as int + 32) as char else c
  }

  /** `s.lower()` / `s.toLowerCase()`, restricted to ASCII letters. */
  function Lower(s: string): (r: string)
    ensures |r| == |s|
    ensures forall i :: 0 <= i < |s| ==> r[i] == LowerChar(s[i])
  {
    seq(|s|, i requires 0 <= i < |s| => LowerChar(s[i]))
  }

  /** The characters Python's `str.isspace()` accepts, which `str.strip()` removes. */
  predicate IsSpace(c: char)
  {
    c == ' ' || '\t' <= c <= '\r' || '\U{1c}' <= c <= '\U{1f}' || c == '\U{85}' || c == '\U{a0}'
    || c == '\U{1680}' || '\U{2000}' <= c <= '\U{200a}' || c == '\U{2028}' || c == '\U{2029}'
    || c == '\U{202f}' || c == '\U{205f}' || c == '\U{3000}'
  }

  function TrimStart(s: string): (r: string)
    ensures |r| <= |s| && r == s[|s| - |r|..]
    ensures forall i :: 0 <= i < |s| - |r| ==> IsSpace(s[i])
    ensures r == [] || !IsSpace(r[0])
  {
    if |s| > 0 && IsSpace(s[0]) then TrimStart(s[1..]) else s
  }

  function TrimEnd(s: string): (r: string)
    ensures |r| <= |s| && r == s[..|r|]
    ensures forall i :: |r| <= i < |s| ==> IsSpace(s[i])
    ensures r == [] || !IsSpace(r[|r| - 1])
  {
    if |s| > 0 && IsSpace(s[|s| - 1]) then TrimEnd(s[..|s| - 1]) else s
  }

  /** Python's `s.strip()` with no argument. */
  function Strip(s: string): string
  {
    TrimEnd(TrimStart(s))
  }

  /** Every character of `s` outside the slice `s[i..j]` is whitespace. */
  predicate OnlySpaceOutside(s: string, i: int, j: int)
    requires 0 <= i <= j <= |s|
  {
    (forall k :: 0 <= k < i ==> IsSpace(s[k])) && (forall k :: j <= k < |s| ==> IsSpace(s[k]))
  }

  /**
   * What `strip()` promises: the result is one contiguous slice of `s`,
   * everything cut away is whitespace and the result neither starts nor
   * ends with whitespace.
   */
  lemma StripSpec(s: string)
    ensures exists i, j :: 0 <= i <= j <= |s| && Strip(s) == s[i..j] && OnlySpaceOutside(s, i, j)
    ensures Strip(s) == [] || (!IsSpace(Strip(s)[0]) && !IsSpace(Strip(s)[|Strip(s)| - 1]))
  {
    var i := |s| - |TrimStart(s)|;
    var j := i + |Strip(s)|;
    StripSlice(s, i, j);
    StripEnds(s);
  }

  /** `strip()` keeps the slice between the leading and the trailing whitespace. */
  lemma StripSlice(s: string, i: nat, j: nat)
    requires i == |s| - |TrimStart(s)| && j == i + |Strip(s)|
    ensures j <= |s| && Strip(s) == s[i..j] && OnlySpaceOutside(s, i, j)
  {
    var t := TrimStart(s);
    var u := TrimEnd(t);
    SliceOfSuffix(s, i, |u|);
    forall k | j <= k < |s| ensures IsSpace(s[k]) {
      assert s[k] == t[k - i];
    }
  }

  /** Neither end of the result is whitespace. */
  lemma StripEnds(s: string)
    ensures Strip(s) == [] || (!IsSpace(Strip(s)[0]) && !IsSpace(Strip(s)[|Strip(s)| - 1]))
  {
    var t := TrimStart(s);
    var u := TrimEnd(t);
    if u != [] {
      assert u[0] == t[0];
    }
  }

  lemma SliceOfSuffix(s: string, i: nat, n: nat)
    requires i + n <= |s|
    ensures s[i..][..n] == s[i..i + n]
  {
  }

  /** A string that neither starts nor ends with whitespace is its own `strip()`. */
  lemma StripKeeps(s: string)
    requires s != [] && !IsSpace(s[0]) && !IsSpace(s[|s| - 1])
    ensures Strip(s) == s
  {
    assert TrimStart(s) == s;
  }

  /** `strip()` removes one trailing blank after such a string. */
  lemma StripTrailingBlank(s: string)
    requires s != [] && !IsSpace(s[0]) && !IsSpace(s[|s| - 1])
    ensures Strip(s + " ") == s
  {
    var t := s + " ";
    assert t[0] == s[0] && IsSpace(t[|t| - 1]);
    assert TrimStart(t) == t;
    assert t[..|t| - 1] == s;
    StripKeeps(s);
  }

  /** `' '.join((a, b))` for a two-level column label. */
  function JoinPair(a: string, b: string): string
  {
    a + " " + b
  }
}
