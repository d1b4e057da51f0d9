/** String helpers the source takes from JavaScript: `String.prototype.trim`
    and `String.prototype.includes`. A string is a sequence of code points. */
module Text {

  /** The code points ECMAScript classes as WhiteSpace or LineTerminator,
      which is the set `trim` strips from both ends. */
  predicate IsWhitespace(c: char) {
    || c == '\t' || c == '\n' || c == '\U{000B}' || c == '\U{000C}' || c == '\r'
    || c == ' ' || c == '\U{00A0}' || c == '\U{1680}'
    || ('\U{2000}' <= c <= '\U{200A}')
    || c == '\U{2028}' || c == '\U{2029}' || c == '\U{202F}' || c == '\U{205F}'
    || c == '\U{3000}' || c == '\U{FEFF}'
  }

  predicate AllWhitespace(s: string) {
    forall i :: 0 <= i < |s| ==> IsWhitespace(s[i])
  }

  /** Neither end of `s` is whitespace. */
  predicate Trimmed(s: string) {
    |s| == 0 || (!IsWhitespace(s[0]) && !IsWhitespace(s[|s| - 1]))
  }

  /** Drops the leading whitespace. */
  function TrimStart(s: string): (r: string)
    ensures |r| == 0 || !IsWhitespace(r[0])
    decreases |s|
  {
    if |s| > 0 && IsWhitespace(s[0]) then TrimStart(s[1..]) else s
  }

  /** Drops the trailing whitespace. */
  function TrimEnd(s: string): (r: string)
    ensures |r| == 0 || !IsWhitespace(r[|r| - 1])
    decreases |s|
  {
    if |s| > 0 && IsWhitespace(s[|s| - 1]) then TrimEnd(s[..|s| - 1]) else s
  }

  /** What `TrimStart` keeps is the suffix after a run of whitespace. */
  lemma {:induction false} TrimStartIsSuffix(s: string)
    ensures |TrimStart(s)| <= |s| && TrimStart(s) == s[|s| - |TrimStart(s)|..]
    ensures AllWhitespace(s[..|s| - |TrimStart(s)|])
    decreases |s|
  {
    if |s| > 0 && IsWhitespace(s[0]) {
      TrimStartIsSuffix(s[1..]);
      var k := |s| - |TrimStart(s)|;
      assert s[1..][k - 1..] == s[k..];
      forall i | 0 <= i < k
        ensures IsWhitespace(s[..k][i])
      {
        if i > 0 {
          assert s[..k][i] == s[1..][..k - 1][i - 1];
        }
      }
    }
  }

  /** What `TrimEnd` keeps is the prefix before a run of whitespace. */
  lemma {:induction false} TrimEndIsPrefix(s: string)
    ensures |TrimEnd(s)| <= |s| && TrimEnd(s) == s[..|TrimEnd(s)|]
    ensures AllWhitespace(s[|TrimEnd(s)|..])
    decreases |s|
  {
    if |s| > 0 && IsWhitespace(s[|s| - 1]) {
      var t := s[..|s| - 1];
      TrimEndIsPrefix(t);
      var k := |TrimEnd(s)|;
      assert t[..k] == s[..k];
      forall i | 0 <= i < |s| - k
        ensures IsWhitespace(s[k..][i])
      {
        if i < |s| - 1 - k {
          assert s[k..][i] == t[k..][i];
        }
      }
    }
  }

  lemma TrimEndKeepsStart(s: string)
    requires |s| == 0 || !IsWhitespace(s[0])
    ensures var r := TrimEnd(s); |r| == 0 || !IsWhitespace(r[0])
  {
    TrimEndIsPrefix(s);
    var r := TrimEnd(s);
    if |r| > 0 {
      assert r[0] == s[0];
    }
  }

  /** `String.prototype.trim`: `s` with the whitespace at both ends removed. */
  function Trim(s: string): (r: string)
    ensures Trimmed(r)
  {
    var t := TrimStart(s);
    TrimEndKeepsStart(t);
    TrimEnd(t)
  }

  /** What `Trim` removes is whitespace, and what it keeps is a contiguous
      middle slice of the input. */
  lemma TrimKeepsMiddle(s: string)
    ensures exists i :: (0 <= i <= |s| - |Trim(s)| && Trim(s) == s[i..i + |Trim(s)|]
                         && AllWhitespace(s[..i]) && AllWhitespace(s[i + |Trim(s)|..]))
  {
    var t := TrimStart(s);
    var r := TrimEnd(t);
    TrimStartIsSuffix(s);
    TrimEndIsPrefix(t);
    var i := |s| - |t|;
    assert r == s[i..i + |r|];
    assert s[i + |r|..] == t[|r|..];
  }

  /** A string without whitespace at either end is its own trim. */
  lemma {:induction false} TrimOfTrimmed(s: string)
    requires Trimmed(s)
    ensures Trim(s) == s
  {
    assert TrimStart(s) == s;
    assert TrimEnd(s) == s;
  }

  /** Trimming twice is trimming once, so storing a trimmed value and
      validating it again sees the same length. */
  lemma {:induction false} TrimIdempotent(s: string)
    ensures Trim(Trim(s)) == Trim(s)
  {
    TrimOfTrimmed(Trim(s));
  }

  predicate IsPrefix(prefix: string, s: string) {
    |prefix| <= |s| && s[..|prefix|] == prefix
  }

  /** `String.prototype.includes`: `search` occurs in `s` at the current
      position or at some later one. */
  predicate Includes(s: string, search: string)
    decreases |s|
  {
    IsPrefix(search, s) || (|s| > 0 && Includes(s[1..], search))
  }

  /** `search` occurs in `s` starting at position `i`. */
  predicate OccursAt(s: string, search: string, i: int) {
    0 <= i <= |s| - |search| && s[i..i + |search|] == search
  }

  /** `Includes` holds exactly when `search` is a contiguous slice of `s`. */
  lemma {:induction false} IncludesIffInfix(s: string, search: string)
    ensures Includes(s, search) <==> exists i :: OccursAt(s, search, i)
    decreases |s|
  {
    if IsPrefix(search, s) {
      assert OccursAt(s, search, 0);
    } else if |s| > 0 {
      IncludesIffInfix(s[1..], search);
      if Includes(s[1..], search) {
        var i :| OccursAt(s[1..], search, i);
        assert s[1..][i..i + |search|] == s[i + 1..i + 1 + |search|];
        assert OccursAt(s, search, i + 1);
      } else {
        forall i | OccursAt(s, search, i)
          ensures false
        {
          if i > 0 {
            assert s[1..][i - 1..i - 1 + |search|] == s[i..i + |search|];
            assert OccursAt(s[1..], search, i - 1);
          }
        }
      }
    }
  }
}
