/**
 * The string operations the command router relies on: JavaScript's
 * `toUpperCase` (restricted to ASCII letters), and `split` on a
 * one-character separator together with its inverse, `join`.
 */
module Text {

  predicate IsLowerAscii(c: char) { 'a' <= c <= 'z' }

  /** `toUpperCase` of one character: ASCII a-z move to A-Z, the rest stay. */
  function UpperChar(c: char): char
  {
    if IsLowerAscii(c) then (c as int - 32) as char else c
  }

  /** `toUpperCase` of a string, character by character. */
  function Upper(s: string): (u: string)
    ensures |u| == |s|
    ensures forall i | 0 <= i < |s| :: u[i] == UpperChar(s[i])
    ensures forall i | 0 <= i < |s| :: !IsLowerAscii(u[i])
  {
    if s == [] then [] else [UpperChar(s[0])] + Upper(s[1..])
  }

  /** Two characters that differ at most in the case of an ASCII letter. */
  predicate SameLetter(a: char, b: char)
  {
    a == b
    || (IsLowerAscii(a) && b as int == a as int - 32)
    || (IsLowerAscii(b) && a as int == b as int - 32)
  }

  /** `s` spells `w` up to the case of ASCII letters. */
  predicate SameIgnoringCase(s: string, w: string)
  {
    |s| == |w| && forall i | 0 <= i < |s| :: SameLetter(s[i], w[i])
  }

  /**
   * Upper-casing `s` yields a word with no lower-case letters exactly when
   * `s` spells that word in any mixture of cases: the upper-cased method
   * token equals "GET" iff the token is one of get, Get, gET, ...
   */
  lemma UpperEqualsIff(s: string, w: string)
    requires forall i | 0 <= i < |w| :: !IsLowerAscii(w[i])
    ensures Upper(s) == w <==> SameIgnoringCase(s, w)
  {
    if SameIgnoringCase(s, w) {
      forall i | 0 <= i < |s|
        ensures Upper(s)[i] == w[i]
      {
        assert SameLetter(s[i], w[i]);
      }
    }
  }

  /** Position of the first occurrence of `c` in `s`. */
  function IndexOf(s: string, c: char): (i: nat)
    requires c in s
    ensures i < |s| && s[i] == c
    ensures c !in s[..i]
  {
    if s[0] == c then 0
    else
      assert s == [s[0]] + s[1..];
      var j := IndexOf(s[1..], c);
      assert s[..j + 1] == [s[0]] + s[1..][..j];
      j + 1
  }

  /** The inverse of `Split`: the pieces with `c` put back between them. */
  function Join(parts: seq<string>, c: char): string
    requires |parts| >= 1
  {
    if |parts| == 1 then parts[0] else parts[0] + [c] + Join(parts[1..], c)
  }

  /**
   * `s.split(c)`: the maximal runs of `s` free of `c`, in order. There is
   * always at least one piece, and there are two or more exactly when `c`
   * occurs in `s`.
   */
  function Split(s: string, c: char): (parts: seq<string>)
    ensures |parts| >= 1
    ensures forall k | 0 <= k < |parts| :: c !in parts[k]
    ensures |parts| >= 2 <==> c in s
    ensures Join(parts, c) == s
    decreases |s|
  {
    if c !in s then [s]
    else
      var i := IndexOf(s, c);
      var rest := Split(s[i + 1..], c);
      assert s == s[..i] + [c] + s[i + 1..];
      [s[..i]] + rest
  }

  /**
   * Split undoes Join: a sequence of c-free pieces is exactly what splitting
   * their join gives back. Together with `Split`'s own contract this makes
   * the two functions mutually inverse.
   */
  lemma {:induction false} SplitJoin(parts: seq<string>, c: char)
    requires |parts| >= 1
    requires forall k | 0 <= k < |parts| :: c !in parts[k]
    ensures Split(Join(parts, c), c) == parts
    decreases |parts|
  {
    if |parts| == 1 {
      assert Join(parts, c) == parts[0];
    } else {
      var s := Join(parts, c);
      var tail := Join(parts[1..], c);
      assert s == parts[0] + [c] + tail;
      assert s[|parts[0]|] == c;
      assert c in s;
      assert s[..|parts[0]|] == parts[0];
      IndexOfAfterFree(parts[0], tail, c);
      assert IndexOf(s, c) == |parts[0]|;
      assert s[|parts[0]| + 1..] == tail;
      SplitJoin(parts[1..], c);
      assert Split(s, c) == [parts[0]] + parts[1..];
    }
  }

  /** The first `c` of `a + [c] + b` is the one after `a` when `a` is c-free. */
  lemma IndexOfAfterFree(a: string, b: string, c: char)
    requires c !in a
    ensures c in a + [c] + b
    ensures IndexOf(a + [c] + b, c) == |a|
  {
    var s := a + [c] + b;
    assert s[|a|] == c;
    assert s[..|a|] == a;
  }

  /** The first occurrence is the only position before which `c` does not occur. */
  lemma IndexOfIs(s: string, c: char, i: nat)
    requires i < |s| && s[i] == c && c !in s[..i]
    ensures IndexOf(s, c) == i
  {
    var j := IndexOf(s, c);
  }

  /** Splitting at a first separator that follows a c-free prefix. */
  lemma SplitAfterFree(a: string, b: string, c: char)
    requires c !in a
    ensures Split(a + [c] + b, c) == [a] + Split(b, c)
  {
    var s := a + [c] + b;
    IndexOfAfterFree(a, b, c);
    assert s[..|a|] == a;
    assert s[|a| + 1..] == b;
  }

  /** The first piece of a split: everything up to the first separator. */
  lemma SplitHead(t: string, c: char)
    ensures Split(t, c)[0] == if c in t then t[..IndexOf(t, c)] else t
  {
  }

  /** The first piece of a split is the longest `c`-free prefix. */
  lemma SplitHeadPrefix(t: string, c: char)
    ensures var h := Split(t, c)[0];
            |h| <= |t| && t[..|h|] == h && c !in h && (|h| == |t| || t[|h|] == c)
  {
    SplitHead(t, c);
    if c in t {
      var j := IndexOf(t, c);
      assert Split(t, c)[0] == t[..j];
    } else {
      assert t[..|t|] == t;
    }
  }

  /** A text has only one `c`-free prefix that ends at a `c` or at the end. */
  lemma FreePrefixUnique(t: string, a: string, b: string, c: char)
    requires |a| <= |t| && t[..|a|] == a && c !in a && (|a| == |t| || t[|a|] == c)
    requires |b| <= |t| && t[..|b|] == b && c !in b && (|b| == |t| || t[|b|] == c)
    ensures a == b
  {
  }

  /** Strings that agree up to letter case upper-case to the same string. */
  lemma SameIgnoringCaseUpper(a: string, b: string)
    requires SameIgnoringCase(a, b)
    ensures Upper(a) == Upper(b)
  {
    forall i | 0 <= i < |a|
      ensures Upper(a)[i] == Upper(b)[i]
    {
      assert SameLetter(a[i], b[i]);
    }
  }
}
