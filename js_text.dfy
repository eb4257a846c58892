/**
 * The JavaScript string operations the booking form's validator relies on:
 * `String.prototype.trim`, the regular expression `/\d/`, and the relational
 * comparison of two strings.
 */
module JsText {

  /** The characters `trim` removes: ECMAScript WhiteSpace and LineTerminator. */
  predicate IsJsWhitespace(c: char)
  {
    c == '\t' || c == '\n' || c == '\U{B}' || c == '\U{C}' || c == '\r' || c == ' '
    || c == '\U{A0}' || c == '\U{1680}' || ('\U{2000}' <= c <= '\U{200A}')
    || c == '\U{2028}' || c == '\U{2029}' || c == '\U{202F}' || c == '\U{205F}'
    || c == '\U{3000}' || c == '\U{FEFF}'
  }

  predicate AllWhitespace(s: string)
  {
    forall i :: 0 <= i < |s| ==> IsJsWhitespace(s[i])
  }

  /** Drops leading whitespace. */
  function TrimStart(s: string): (r: string)
    ensures |r| <= |s|
    ensures r == [] || !IsJsWhitespace(r[0])
    decreases |s|
  {
    if s != [] && IsJsWhitespace(s[0]) then TrimStart(s[1..]) else s
  }

  /** Drops trailing whitespace. */
  function TrimEnd(s: string): (r: string)
    ensures |r| <= |s|
    ensures r == [] || !IsJsWhitespace(r[|r| - 1])
    decreases |s|
  {
    if s != [] && IsJsWhitespace(s[|s| - 1]) then TrimEnd(s[..|s| - 1]) else s
  }

  /** `TrimStart` keeps a suffix of `s` and drops only whitespace. */
  lemma {:induction false} TrimStartDropsWhitespace(s: string)
    ensures TrimStart(s) == s[|s| - |TrimStart(s)|..]
    ensures AllWhitespace(s[..|s| - |TrimStart(s)|])
    decreases |s|
  {
    if s != [] && IsJsWhitespace(s[0]) {
      TrimStartDropsWhitespace(s[1..]);
      var n := |s| - |TrimStart(s)|;
      assert s[1..][..n - 1] == s[1..n];
      forall i | 0 <= i < n ensures IsJsWhitespace(s[..n][i]) {
        if i > 0 {
          assert s[..n][i] == s[1..][..n - 1][i - 1];
        }
      }
    }
  }

  /** `TrimEnd` keeps a prefix of `s` and drops only whitespace. */
  lemma {:induction false} TrimEndDropsWhitespace(s: string)
    ensures TrimEnd(s) == s[..|TrimEnd(s)|]
    ensures AllWhitespace(s[|TrimEnd(s)|..])
    decreases |s|
  {
    if s != [] && IsJsWhitespace(s[|s| - 1]) {
      var init := s[..|s| - 1];
      TrimEndDropsWhitespace(init);
      var n := |TrimEnd(s)|;
      assert init[..n] == s[..n];
      forall i | n <= i < |s| ensures IsJsWhitespace(s[i]) {
        if i < |s| - 1 {
          assert s[i] == init[n..][i - n];
        }
      }
    }
  }

  function Trim(s: string): string
  {
    TrimEnd(TrimStart(s))
  }

  /** The trimmed string is empty exactly when every character is whitespace. */
  lemma TrimEmptyIffAllWhitespace(s: string)
    ensures Trim(s) == [] <==> AllWhitespace(s)
  {
    var t := TrimStart(s);
    TrimStartDropsWhitespace(s);
    TrimEndDropsWhitespace(t);
    if Trim(s) == [] {
      assert AllWhitespace(t[0..]);
      assert t[0..] == t;
      assert t == [];
      assert s[..|s|] == s;
    } else {
      assert t != [];
      assert t[0] == s[|s| - |t|];
    }
  }

  /** `!s.trim()`: the trimmed string is empty, hence falsy; so the string is all whitespace. */
  predicate IsBlank(s: string): (r: bool)
    ensures r <==> AllWhitespace(s)
  {
    TrimEmptyIffAllWhitespace(s);
    Trim(s) == []
  }

  /** `/\d/` matches the ASCII digits only. */
  predicate IsDigit(c: char)
  {
    '0' <= c <= '9'
  }

  /** `/\d/.test(s)`. */
  predicate ContainsDigit(s: string)
  {
    exists i :: 0 <= i < |s| && IsDigit(s[i])
  }

  /** A string with a digit in it is never blank. */
  lemma DigitNotBlank(s: string)
    ensures ContainsDigit(s) ==> !IsBlank(s)
  {
  }

  /**
   * `a < b` on two strings: the first differing character decides, and a
   * proper prefix is smaller.
   */
  predicate StringLess(a: string, b: string)
    decreases |a|
  {
    if a == [] then b != []
    else if b == [] then false
    else if a[0] != b[0] then a[0] < b[0]
    else StringLess(a[1..], b[1..])
  }

  /** The lexicographic order, stated without recursion. */
  predicate LexicographicLess(a: string, b: string)
  {
    (|a| < |b| && a == b[..|a|])
    || exists k :: 0 <= k < |a| && k < |b| && a[..k] == b[..k] && a[k] < b[k]
  }

  /** A common prefix followed by a smaller character makes the first string smaller. */
  lemma {:induction false} DifferenceMakesLess(a: string, b: string, k: nat)
    requires k < |a| && k < |b| && a[..k] == b[..k] && a[k] < b[k]
    ensures StringLess(a, b)
    decreases k
  {
    if k > 0 {
      assert a[0] == a[..k][0] && b[0] == b[..k][0];
      assert a[1..][..k - 1] == a[1..k] == b[1..k] == b[1..][..k - 1];
      DifferenceMakesLess(a[1..], b[1..], k - 1);
    }
  }

  /** A proper prefix is smaller. */
  lemma {:induction false} PrefixMakesLess(a: string, b: string)
    requires |a| < |b| && a == b[..|a|]
    ensures StringLess(a, b)
    decreases |a|
  {
    if a != [] {
      assert a[0] == b[..|a|][0];
      assert a[1..] == b[1..][..|a| - 1];
      PrefixMakesLess(a[1..], b[1..]);
    }
  }

  /** `StringLess` finds the witness `LexicographicLess` asks for. */
  lemma {:induction false} LessHasWitness(a: string, b: string)
    requires StringLess(a, b)
    ensures LexicographicLess(a, b)
    decreases |a|
  {
    if a == [] {
      assert a == b[..0];
    } else if a[0] != b[0] {
      assert a[..0] == b[..0];
    } else {
      var a', b' := a[1..], b[1..];
      LessHasWitness(a', b');
      if |a'| < |b'| && a' == b'[..|a'|] {
        assert a == [a[0]] + a' && b[..|a|] == [b[0]] + b'[..|a'|];
      } else {
        var k :| 0 <= k < |a'| && k < |b'| && a'[..k] == b'[..k] && a'[k] < b'[k];
        assert a[..k + 1] == [a[0]] + a'[..k] && b[..k + 1] == [b[0]] + b'[..k];
        assert a[k + 1] == a'[k] && b[k + 1] == b'[k];
      }
    }
  }

  lemma StringLessIsLexicographic(a: string, b: string)
    ensures StringLess(a, b) <==> LexicographicLess(a, b)
  {
    if StringLess(a, b) {
      LessHasWitness(a, b);
    } else if |a| < |b| && a == b[..|a|] {
      PrefixMakesLess(a, b);
    } else if exists k :: 0 <= k < |a| && k < |b| && a[..k] == b[..k] && a[k] < b[k] {
      var k :| 0 <= k < |a| && k < |b| && a[..k] == b[..k] && a[k] < b[k];
      DifferenceMakesLess(a, b, k);
    }
  }

  /** Exactly one of `a < b`, `a == b`, `b < a` holds. */
  lemma {:induction false} StringLessTrichotomy(a: string, b: string)
    ensures StringLess(a, b) || a == b || StringLess(b, a)
    ensures !(StringLess(a, b) && StringLess(b, a))
    ensures !(StringLess(a, b) && a == b)
    decreases |a|
  {
    if a != [] && b != [] && a[0] == b[0] {
      StringLessTrichotomy(a[1..], b[1..]);
      if a[1..] == b[1..] {
        assert a == [a[0]] + a[1..] && b == [b[0]] + b[1..];
      }
    }
  }
}
