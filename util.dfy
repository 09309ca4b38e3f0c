/** Small helpers shared by the modules of the model. */
module Util {

  datatype Option<+T> = None | Some(value: T)

  /** Element `i` of `s`, or `d` past its end: an oracle sequence that ran out. */
  function At<T>(s: seq<T>, i: nat, d: T): T
  {
    if i < |s| then s[i] else d
  }

  function Min(a: int, b: int): int
  {
    if a <= b then a else b
  }

  /** The size of the stack buffer multiPrintf formats into. */
  const PrintfBuffSize: nat := 256

  /** What a "%.ns" conversion prints of `s`: at most its first `n` characters. */
  function Precision(s: string, n: nat): (r: string)
    ensures r <= s && |r| == Min(|s|, n)
  {
    if |s| <= n then s else s[..n]
  }

  /**
   * What a "%.ns" argument prints inside a format whose other text takes
   * `overhead` characters, with n as large as the printf buffer and the NUL
   * allow: a prefix of `s` that always fits, and all of `s` exactly when the
   * unbounded "%s" would have fitted.
   */
  function Fitted(s: string, overhead: nat): (r: string)
    requires overhead < PrintfBuffSize
    ensures r <= s && overhead + |r| < PrintfBuffSize
    ensures r == s <==> overhead + |s| < PrintfBuffSize
  {
    Precision(s, PrintfBuffSize - 1 - overhead)
  }
}

/** C strings: a character buffer read up to its first NUL. */
module CString {

  /** The string a `char *` pointing at `s[0]` denotes: the characters before the first NUL. */
  function CStr(s: seq<char>): (r: seq<char>)
    ensures |r| <= |s| && r == s[..|r|]
    ensures '\0' !in r
    ensures |r| < |s| ==> s[|r|] == '\0'
  {
    if s == [] || s[0] == '\0' then [] else [s[0]] + CStr(s[1..])
  }

  /** A buffer whose first NUL is at `i` holds the string `s[..i]`. */
  lemma CStrAt(s: seq<char>, i: nat)
    requires i < |s| && s[i] == '\0' && '\0' !in s[..i]
    ensures CStr(s) == s[..i]
  {
  }

  /** Text without a NUL is its own C string. */
  lemma CStrPlain(s: seq<char>)
    requires '\0' !in s
    ensures CStr(s) == s
  {
  }

  /** Writing a terminator after a buffer does not change the string it holds. */
  lemma {:induction false} CStrTerminated(s: seq<char>)
    ensures CStr(s + ['\0']) == CStr(s)
  {
    if s != [] && s[0] != '\0' {
      assert (s + ['\0'])[1..] == s[1..] + ['\0'];
      CStrTerminated(s[1..]);
    }
  }

  /** A buffer holds the string that its part before a NUL at `k` holds. */
  lemma {:induction false} CStrUpTo(s: seq<char>, k: nat)
    requires k < |s| && s[k] == '\0'
    ensures CStr(s) == CStr(s[..k])
    decreases k
  {
    if k > 0 && s[0] != '\0' {
      assert s[1..][..k - 1] == s[..k][1..];
      CStrUpTo(s[1..], k - 1);
    }
  }

  /** Whatever follows a terminator is not part of the string. */
  lemma {:induction false} CStrCut(s: seq<char>, t: seq<char>)
    ensures CStr(s + ['\0'] + t) == CStr(s)
  {
    if s != [] && s[0] != '\0' {
      assert (s + ['\0'] + t)[1..] == s[1..] + ['\0'] + t;
      CStrCut(s[1..], t);
    }
  }
}
