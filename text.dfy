/**
 * The string handling both controllers apply to the generated text before
 * parsing it: `text.replace(/```json/g, '').replace(/```/g, '').trim()`.
 */
module Text {

  const Fence: string := "```"
  const JsonFence: string := "```json"

  /** `s.includes(pat)`: `pat` occurs somewhere in `s`. */
  predicate Contains(s: string, pat: string)
    decreases |s|
  {
    |pat| <= |s| && (s[..|pat|] == pat || Contains(s[1..], pat))
  }

  /**
   * `s.replace(/pat/g, '')` for a pattern without special characters: scans
   * left to right and deletes every non-overlapping occurrence.
   */
  function RemoveAll(s: string, pat: string): (r: string)
    requires pat != []
    ensures |r| <= |s|
    decreases |s|
  {
    if |s| < |pat| then s
    else if s[..|pat|] == pat then RemoveAll(s[|pat|..], pat)
    else [s[0]] + RemoveAll(s[1..], pat)
  }

  /** The white space and line terminators that `String.prototype.trim` removes. */
  predicate IsWhitespace(c: char) {
    c in {'\t', '\n', '\U{000B}', '\U{000C}', '\r', ' ', '\U{00A0}', '\U{1680}',
          '\U{2000}', '\U{2001}', '\U{2002}', '\U{2003}', '\U{2004}', '\U{2005}',
          '\U{2006}', '\U{2007}', '\U{2008}', '\U{2009}', '\U{200A}', '\U{2028}',
          '\U{2029}', '\U{202F}', '\U{205F}', '\U{3000}', '\U{FEFF}'}
  }

  /** Drops the leading white space: what is left is a suffix that starts with a non-blank. */
  function TrimStart(s: string): (r: string)
    ensures |r| <= |s| && r == s[|s| - |r|..]
    ensures forall i :: 0 <= i < |s| - |r| ==> IsWhitespace(s[i])
    ensures r == [] || !IsWhitespace(r[0])
  {
    if s != [] && IsWhitespace(s[0]) then TrimStart(s[1..]) else s
  }

  /** Drops the trailing white space: what is left is a prefix that ends with a non-blank. */
  function TrimEnd(s: string): (r: string)
    ensures |r| <= |s| && r == s[..|r|]
    ensures forall i :: |r| <= i < |s| ==> IsWhitespace(s[i])
    ensures r == [] || !IsWhitespace(r[|r| - 1])
  {
    if s != [] && IsWhitespace(s[|s| - 1]) then TrimEnd(s[..|s| - 1]) else s
  }

  /** `s.trim()`. */
  function Trim(s: string): (r: string)
    ensures |r| <= |s|
    ensures r == [] || (!IsWhitespace(r[0]) && !IsWhitespace(r[|r| - 1]))
  {
    TrimEnd(TrimStart(s))
  }

  /** Removes the markdown code fences around generated JSON, then the surrounding blanks. */
  function StripCodeFences(text: string): (r: string)
    ensures |r| <= |text|
    ensures !Contains(r, Fence)
  {
    var unfenced := RemoveAll(RemoveAll(text, JsonFence), Fence);
    RemoveFenceLeavesNone(RemoveAll(text, JsonFence));
    TrimKeepsAbsence(unfenced, Fence);
    Trim(unfenced)
  }

  lemma {:induction false} ContainsInSuffix(s: string, k: nat, pat: string)
    requires k <= |s| && Contains(s[k..], pat)
    ensures Contains(s, pat)
    decreases k
  {
    if k > 0 {
      assert s[1..][k - 1..] == s[k..];
      ContainsInSuffix(s[1..], k - 1, pat);
    }
  }

  lemma {:induction false} ContainsInPrefix(s: string, k: nat, pat: string)
    requires k <= |s| && Contains(s[..k], pat)
    ensures Contains(s, pat)
    decreases k
  {
    if s[..k][..|pat|] != pat {
      assert s[..k][1..] == s[1..][..k - 1];
      ContainsInPrefix(s[1..], k - 1, pat);
    }
  }

  /** Trimming only removes characters, so it cannot create an occurrence. */
  lemma TrimKeepsAbsence(s: string, pat: string)
    requires !Contains(s, pat)
    ensures !Contains(Trim(s), pat)
  {
    var a := TrimStart(s);
    if Contains(a, pat) {
      ContainsInSuffix(s, |s| - |a|, pat);
    }
    var b := TrimEnd(a);
    if Contains(b, pat) {
      ContainsInPrefix(a, |b|, pat);
    }
  }

  /** Removing a pattern that does not occur changes nothing. */
  lemma {:induction false} RemoveAllAbsent(s: string, pat: string)
    requires pat != [] && !Contains(s, pat)
    ensures RemoveAll(s, pat) == s
    decreases |s|
  {
    if |s| >= |pat| {
      RemoveAllAbsent(s[1..], pat);
    }
  }

  /** A string that does not start with a backtick keeps its first character. */
  lemma RemoveFenceKeepsHead(s: string)
    requires s != [] && s[0] != '`'
    ensures RemoveAll(s, Fence) != [] && RemoveAll(s, Fence)[0] == s[0]
  {
  }

  /** Prepending one character creates an occurrence of the fence only if it completes one. */
  lemma ConsNoFence(c: char, r: string)
    requires !Contains(r, Fence)
    requires !(c == '`' && |r| >= 2 && r[0] == '`' && r[1] == '`')
    ensures !Contains([c] + r, Fence)
  {
    var x := [c] + r;
    assert x[1..] == r;
    if |x| >= 3 {
      assert x[..3] != Fence by {
        if c == '`' && r[0] == '`' {
          assert r[1] != '`';
          assert x[2] == r[1];
        }
        else if c != '`' {
          assert x[..3][0] != Fence[0];
        } else {
          assert x[..3][1] != Fence[1];
        }
      }
    }
  }

  /**
   * Deleting every "```" cannot leave one behind: each run of backticks is
   * cut down to fewer than three and runs stay separated.
   */
  lemma {:induction false} RemoveFenceLeavesNone(s: string)
    ensures !Contains(RemoveAll(s, Fence), Fence)
    decreases |s|
  {
    if |s| < 3 {
    } else if s[..3] == Fence {
      RemoveFenceLeavesNone(s[3..]);
    } else {
      var t := s[1..];
      RemoveFenceLeavesNone(t);
      var rt := RemoveAll(t, Fence);
      if s[0] == '`' {
        if t[0] != '`' {
          RemoveFenceKeepsHead(t);
        } else {
          assert t[1] != '`';
          if |t| >= 3 {
            assert t[..3] != Fence;
            RemoveFenceKeepsHead(t[1..]);
            assert rt == [t[0]] + RemoveAll(t[1..], Fence);
          }
        }
      }
      ConsNoFence(s[0], rt);
    }
  }

  lemma TrimIdempotent(s: string)
    ensures Trim(Trim(s)) == Trim(s)
  {
    var b := Trim(s);
    assert TrimStart(b) == b;
    assert TrimEnd(b) == b;
  }

  /** Stripping twice gives the same text as stripping once. */
  lemma StripIdempotent(text: string)
    ensures StripCodeFences(StripCodeFences(text)) == StripCodeFences(text)
  {
    var once := StripCodeFences(text);
    assert !Contains(once, JsonFence) by {
      if Contains(once, JsonFence) {
        FenceInJsonFence(once);
      }
    }
    RemoveAllAbsent(once, JsonFence);
    RemoveAllAbsent(once, Fence);
    TrimIdempotent(RemoveAll(RemoveAll(text, JsonFence), Fence));
  }

  lemma {:induction false} FenceInJsonFence(s: string)
    requires Contains(s, JsonFence)
    ensures Contains(s, Fence)
    decreases |s|
  {
    if s[..|JsonFence|] != JsonFence {
      FenceInJsonFence(s[1..]);
    }
  }

  /** Text without fences is only trimmed. */
  lemma StripUnfenced(text: string)
    requires !Contains(text, Fence)
    ensures StripCodeFences(text) == Trim(text)
  {
    if Contains(text, JsonFence) {
      FenceInJsonFence(text);
    }
    RemoveAllAbsent(text, JsonFence);
    RemoveAllAbsent(text, Fence);
  }
}
