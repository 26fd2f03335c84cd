/**
 * Small vocabulary shared by the modules: an optional value and the
 * C-string view of a character buffer.
 */
module Common {

  datatype Option<T> = None | Some(value: T)

  const NUL: char := '\0'

  function Min(a: int, b: int): int
  {
    if a <= b then a else b
  }

  /** The text a C string routine sees in a buffer: every character before the first NUL. */
  function CStr(s: seq<char>): (r: seq<char>)
    ensures r <= s
    ensures NUL !in r
    ensures |r| < |s| ==> s[|r|] == NUL
  {
    if s == [] || s[0] == NUL then [] else [s[0]] + CStr(s[1..])
  }

  lemma {:induction false} CStrOfPlain(s: seq<char>)
    requires NUL !in s
    ensures CStr(s) == s
  {
    if s != [] {
      CStrOfPlain(s[1..]);
    }
  }

  /** The C-string view of a concatenation only looks past the first part when that part holds no NUL. */
  lemma {:induction false} CStrAppend(s: seq<char>, t: seq<char>)
    ensures CStr(s + t) == if NUL in s then CStr(s) else s + CStr(t)
  {
    if s != [] {
      assert (s + t)[0] == s[0] && (s + t)[1..] == s[1..] + t;
      assert s[0] != NUL ==> CStr(s + t) == [s[0]] + CStr(s[1..] + t);
      CStrAppend(s[1..], t);
      if s[0] != NUL {
        assert NUL in s <==> NUL in s[1..];
        assert CStr(s) == [s[0]] + CStr(s[1..]);
        assert s == [s[0]] + s[1..];
      }
    } else {
      assert s + t == t;
    }
  }

  /** A buffer whose first NUL is at position i (or that has none, i = |s|) reads as its first i characters. */
  lemma CStrStopsAt(s: seq<char>, i: nat)
    requires i <= |s| && NUL !in s[..i]
    requires i < |s| ==> s[i] == NUL
    ensures CStr(s) == s[..i]
  {
    assert s == s[..i] + s[i..];
    CStrAppend(s[..i], s[i..]);
    assert CStr(s[i..]) == [];
  }

  /** `s` followed by NULs up to length `n`: what strncpy leaves in its destination. */
  function Padded(s: seq<char>, n: nat): (r: seq<char>)
    requires |s| <= n
    ensures |r| == n && r[..|s|] == s
    ensures forall k | |s| <= k < n :: r[k] == NUL
  {
    s + seq(n - |s|, _ => NUL)
  }

  /** One more NUL of padding. */
  lemma PaddedSnoc(s: seq<char>, n: nat)
    requires |s| <= n
    ensures Padded(s, n + 1) == Padded(s, n) + [NUL]
  {
    assert seq(n + 1 - |s|, _ => NUL) == seq(n - |s|, _ => NUL) + [NUL];
  }
}
