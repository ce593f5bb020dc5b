/** Python's `str.strip()` with no argument, over the characters for which
    `str.isspace()` holds. */
module Text {

  /** The 29 code points Python's `str.isspace()` accepts: the ASCII
      controls TAB..CR and FS..US, SPACE, NEL, NBSP, OGHAM SPACE MARK,
      EN QUAD..HAIR SPACE, LINE and PARAGRAPH SEPARATOR, NARROW NBSP,
      MEDIUM MATHEMATICAL SPACE and IDEOGRAPHIC SPACE. */
  predicate IsSpace(c: char)
    ensures IsSpace(c) <==> c in Whitespace
  {
    || ('\t' <= c <= '\r')
    || ('\U{1C}' <= c <= '\U{1F}')
    || c == ' '
    || c == '\U{85}'
    || c == '\U{A0}'
    || c == '\U{1680}'
    || ('\U{2000}' <= c <= '\U{200A}')
    || c == '\U{2028}'
    || c == '\U{2029}'
    || c == '\U{202F}'
    || c == '\U{205F}'
    || c == '\U{3000}'
  }

  /** The same 29 code points, listed one by one. */
  const Whitespace: set<char> := {
    '\U{9}', '\U{A}', '\U{B}', '\U{C}', '\U{D}', '\U{1C}', '\U{1D}', '\U{1E}',
    '\U{1F}', '\U{20}', '\U{85}', '\U{A0}', '\U{1680}', '\U{2000}', '\U{2001}', '\U{2002}',
    '\U{2003}', '\U{2004}', '\U{2005}', '\U{2006}', '\U{2007}', '\U{2008}', '\U{2009}', '\U{200A}',
    '\U{2028}', '\U{2029}', '\U{202F}', '\U{205F}', '\U{3000}'
  }

  /** True when `s` holds whitespace only (the empty string included). */
  predicate Blank(s: string)
  {
    forall k :: 0 <= k < |s| ==> IsSpace(s[k])
  }

  /** `s.lstrip()`. */
  function TrimStart(s: string): (r: string)
    ensures |r| <= |s|
  {
    if s != [] && IsSpace(s[0]) then TrimStart(s[1..]) else s
  }

  /** `s.rstrip()`. */
  function TrimEnd(s: string): (r: string)
    ensures |r| <= |s|
  {
    if s != [] && IsSpace(s[|s| - 1]) then TrimEnd(s[..|s| - 1]) else s
  }

  /** `lstrip()` keeps a suffix of `s` that does not start with whitespace,
      and everything it drops is whitespace. */
  lemma {:induction false} TrimStartIsSuffix(s: string)
    ensures var r := TrimStart(s);
      && r == s[|s| - |r|..]
      && (r == [] || !IsSpace(r[0]))
      && Blank(s[..|s| - |r|])
  {
    if s != [] && IsSpace(s[0]) {
      TrimStartIsSuffix(s[1..]);
      var r := TrimStart(s[1..]);
      assert s[1..][..|s| - 1 - |r|] == s[1..|s| - |r|];
    }
  }

  /** `rstrip()` keeps a prefix of `s` that does not end with whitespace,
      and everything it drops is whitespace. */
  lemma {:induction false} TrimEndIsPrefix(s: string)
    ensures var r := TrimEnd(s);
      && r == s[..|r|]
      && (r == [] || !IsSpace(r[|r| - 1]))
      && Blank(s[|r|..])
  {
    if s != [] && IsSpace(s[|s| - 1]) {
      TrimEndIsPrefix(s[..|s| - 1]);
      var r := TrimEnd(s[..|s| - 1]);
      assert s[..|s| - 1][|r|..] == s[|r|..|s| - 1];
      assert s[|r|..] == s[|r|..|s| - 1] + [s[|s| - 1]];
    }
  }

  /** `s.strip()`. */
  function Trim(s: string): (r: string)
    ensures |r| <= |s|
    ensures r == [] || (!IsSpace(r[0]) && !IsSpace(r[|r| - 1]))
  {
    TrimStartIsSuffix(s);
    TrimEndIsPrefix(TrimStart(s));
    TrimEnd(TrimStart(s))
  }

  /** Number of whitespace characters `strip()` removes at the front. */
  function Lead(s: string): (n: nat)
    ensures n <= |s|
  {
    |s| - |TrimStart(s)|
  }

  /** The stripped string is the slice of `s` that starts after the leading
      whitespace; it neither starts nor ends with whitespace, and only
      whitespace lies outside it. */
  lemma TrimIsCore(s: string)
    ensures Lead(s) + |Trim(s)| <= |s|
    ensures Trim(s) == s[Lead(s)..Lead(s) + |Trim(s)|]
    ensures Trim(s) == [] || (!IsSpace(Trim(s)[0]) && !IsSpace(Trim(s)[|Trim(s)| - 1]))
    ensures Blank(s[..Lead(s)]) && Blank(s[Lead(s) + |Trim(s)|..])
  {
    var t := TrimStart(s);
    var r := TrimEnd(t);
    TrimStartIsSuffix(s);
    TrimEndIsPrefix(t);
    assert Trim(s) == r && Lead(s) == |s| - |t|;
    assert t[|r|..] == s[Lead(s) + |r|..];
  }

  /** `strip()` yields the empty string exactly when `s` is all whitespace. */
  lemma TrimEmptyIffBlank(s: string)
    ensures Trim(s) == [] <==> Blank(s)
  {
    TrimIsCore(s);
    if Trim(s) == [] {
      var t := TrimStart(s);
      TrimStartIsSuffix(s);
      TrimEndIsPrefix(t);
      assert t[0..] == t;
      assert s[..|s|] == s;
    } else {
      assert Trim(s)[0] == s[Lead(s)];
    }
  }

  /** A string with no whitespace at either end is its own `strip()`. */
  lemma TrimFixesCore(s: string)
    requires s == [] || (!IsSpace(s[0]) && !IsSpace(s[|s| - 1]))
    ensures Trim(s) == s
  {
  }

  /** `strip()` is idempotent. */
  lemma TrimIdempotent(s: string)
    ensures Trim(Trim(s)) == Trim(s)
  {
    TrimIsCore(s);
    TrimFixesCore(Trim(s));
  }

  /** Surrounding a string with whitespace does not change its `strip()`. */
  lemma TrimIgnoresPadding(pre: string, s: string, post: string)
    requires Blank(pre) && Blank(post)
    requires s == [] || (!IsSpace(s[0]) && !IsSpace(s[|s| - 1]))
    ensures Trim(pre + s + post) == s
  {
    if s == [] {
      assert pre + s + post == pre + post;
      TrimEmptyIffBlank(pre + post);
    } else {
      TrimStartDropsBlank(pre, s + post);
      assert pre + s + post == pre + (s + post);
      TrimEndDropsBlank(s, post);
    }
  }

  lemma {:induction false} TrimStartDropsBlank(pre: string, s: string)
    requires Blank(pre)
    requires s != [] && !IsSpace(s[0])
    ensures TrimStart(pre + s) == s
  {
    if pre != [] {
      assert (pre + s)[1..] == pre[1..] + s;
      TrimStartDropsBlank(pre[1..], s);
    }
  }

  lemma {:induction false} TrimEndDropsBlank(s: string, post: string)
    requires Blank(post)
    requires s != [] && !IsSpace(s[|s| - 1])
    ensures TrimEnd(s + post) == s
  {
    if post != [] {
      assert (s + post)[..|s + post| - 1] == s + post[..|post| - 1];
      TrimEndDropsBlank(s, post[..|post| - 1]);
    }
  }
}
