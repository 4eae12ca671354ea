/**
 * The grounding context sent to the model with each question: the text of the
 * site's `about.md` and `summary.md` pages, each without its TOML front matter
 * (a leading block fenced by `+++` lines), joined by a blank line.
 */
module ResumeContext {
  import opened Wrappers

  /**
   * JavaScript white space and line terminators: the characters that the regular
   * expression class `\s` matches and that `String.prototype.trim` removes.
   */
  predicate IsSpace(c: char) {
    c in JsWhiteSpace
  }

  const JsWhiteSpace: set<char> := {
    '\t', '\n', '\U{B}', '\U{C}', '\r', ' ', '\U{A0}', '\U{1680}',
    '\U{2000}', '\U{2001}', '\U{2002}', '\U{2003}', '\U{2004}', '\U{2005}',
    '\U{2006}', '\U{2007}', '\U{2008}', '\U{2009}', '\U{200A}',
    '\U{2028}', '\U{2029}', '\U{202F}', '\U{205F}', '\U{3000}', '\U{FEFF}'
  }

  predicate AllSpace(s: string) {
    forall i :: 0 <= i < |s| ==> IsSpace(s[i])
  }

  /** Drops the leading white space: what `\s*` consumes at the front. */
  function TrimStart(s: string): (r: string)
    ensures |r| <= |s| && r == s[|s| - |r|..]
    ensures r == [] || !IsSpace(r[0])
    decreases |s|
  {
    if s != [] && IsSpace(s[0]) then TrimStart(s[1..]) else s
  }

  /** Drops the trailing white space. */
  function TrimEnd(s: string): (r: string)
    ensures |r| <= |s| && r == s[..|r|]
    ensures r == [] || !IsSpace(r[|r| - 1])
    decreases |s|
  {
    if s != [] && IsSpace(s[|s| - 1]) then TrimEnd(s[..|s| - 1]) else s
  }

  /** `s.trim()`: removes white space at both ends and nothing else. */
  function Trim(s: string): (r: string)
    ensures r == [] || (!IsSpace(r[0]) && !IsSpace(r[|r| - 1]))
  {
    TrimEnd(TrimStart(s))
  }

  /** What `TrimStart` drops is white space. */
  lemma {:induction false} TrimStartDropsSpace(s: string)
    ensures AllSpace(s[..|s| - |TrimStart(s)|])
    decreases |s|
  {
    if s != [] && IsSpace(s[0]) {
      TrimStartDropsSpace(s[1..]);
      var k := |s| - |TrimStart(s)|;
      assert s[..k] == [s[0]] + s[1..][..k - 1];
    }
  }

  /** What `TrimEnd` drops is white space. */
  lemma {:induction false} TrimEndDropsSpace(s: string)
    ensures AllSpace(s[|TrimEnd(s)|..])
    decreases |s|
  {
    if s != [] && IsSpace(s[|s| - 1]) {
      var init := s[..|s| - 1];
      TrimEndDropsSpace(init);
      var k := |TrimEnd(s)|;
      assert s[k..] == init[k..] + [s[|s| - 1]];
    }
  }

  /**
   * What `Trim` removes is white space, at the two ends: the input is leading
   * white space followed by `TrimStart(s)`, which is the result followed by
   * trailing white space.
   */
  lemma TrimMargins(s: string)
    ensures var t := TrimStart(s);
      && s == s[..|s| - |t|] + t && AllSpace(s[..|s| - |t|])
      && t == Trim(s) + t[|Trim(s)|..] && AllSpace(t[|Trim(s)|..])
  {
    var t := TrimStart(s);
    assert s == s[..|s| - |t|] + s[|s| - |t|..];
    assert t == t[..|Trim(s)|] + t[|Trim(s)|..];
    TrimStartDropsSpace(s);
    TrimEndDropsSpace(t);
  }

  /** A string without white space at either end is its own trim. */
  lemma TrimmedIsFixed(s: string)
    requires s == [] || (!IsSpace(s[0]) && !IsSpace(s[|s| - 1]))
    ensures Trim(s) == s
  {
  }

  lemma {:induction false} TrimStartSkipsSpace(w: string, s: string)
    requires AllSpace(w)
    ensures TrimStart(w + s) == TrimStart(s)
    decreases |w|
  {
    if w != [] {
      assert (w + s)[0] == w[0] && IsSpace(w[0]);
      assert (w + s)[1..] == w[1..] + s;
      TrimStartSkipsSpace(w[1..], s);
    } else {
      assert w + s == s;
    }
  }

  lemma {:induction false} TrimEndSkipsSpace(s: string, w: string)
    requires AllSpace(w)
    ensures TrimEnd(s + w) == TrimEnd(s)
    decreases |w|
  {
    if w != [] {
      var w' := w[..|w| - 1];
      assert (s + w)[|s + w| - 1] == w[|w| - 1] && IsSpace(w[|w| - 1]);
      assert (s + w)[..|s + w| - 1] == s + w';
      assert AllSpace(w');
      TrimEndSkipsSpace(s, w');
    } else {
      assert s + w == s;
    }
  }

  /** Consuming `\s*` before a `trim` changes nothing. */
  lemma TrimAfterTrimStart(s: string)
    ensures Trim(TrimStart(s)) == Trim(s)
  {
    var t := TrimStart(s);
    assert TrimStart(t) == t;
  }

  /** A `+++` fence starts at index `j`. */
  predicate FenceAt(s: string, j: nat) {
    j + 3 <= |s| && s[j] == '+' && s[j + 1] == '+' && s[j + 2] == '+'
  }

  /** The first fence that starts at `from` or later. */
  function FindFence(s: string, from: nat): (r: Option<nat>)
    ensures r.Some? ==> from <= r.value && FenceAt(s, r.value)
    ensures r.Some? ==> forall k :: from <= k < r.value ==> !FenceAt(s, k)
    ensures r.None? ==> forall k :: from <= k ==> !FenceAt(s, k)
    decreases |s| - from
  {
    if |s| < from + 3 then None
    else if FenceAt(s, from) then Some(from)
    else FindFence(s, from + 1)
  }

  /**
   * `j` is where the lazy `[\s\S]*?` of `^\+\+\+[\s\S]*?\+\+\+` stops: the first
   * fence that starts after the opening one's three characters.
   */
  predicate IsClosingFence(md: string, j: nat) {
    3 <= j && FenceAt(md, j) && forall k :: 3 <= k < j ==> !FenceAt(md, k)
  }

  /** The closing fence is the one `FindFence` finds from index 3. */
  lemma ClosingFenceFound(md: string, j: nat)
    requires IsClosingFence(md, j)
    ensures FindFence(md, 3) == Some(j)
  {
  }

  predicate HasFrontMatter(md: string) {
    FenceAt(md, 0) && exists j :: 3 <= j <= |md| && FenceAt(md, j)
  }

  /**
   * `md.replace(/^\+\+\+[\s\S]*?\+\+\+\s*\/, '').trim()`: a front-matter block at
   * index 0, through its first closing fence, goes; so does the white space after it.
   */
  function StripFrontMatter(md: string): (r: string)
    ensures r == [] || (!IsSpace(r[0]) && !IsSpace(r[|r| - 1]))
  {
    if FenceAt(md, 0) then
      match FindFence(md, 3)
      case Some(j) => Trim(TrimStart(md[j + 3..]))
      case None => Trim(md)
    else Trim(md)
  }

  /** Without a second fence, no closing fence is found. */
  lemma NoClosingFence(md: string)
    requires forall j :: 3 <= j <= |md| ==> !FenceAt(md, j)
    ensures FindFence(md, 3) == None
  {
  }

  /** Without a front-matter block the page is only trimmed. */
  lemma StripWithoutFrontMatter(md: string)
    requires !HasFrontMatter(md)
    ensures StripFrontMatter(md) == Trim(md)
  {
    if FenceAt(md, 0) {
      NoClosingFence(md);
    }
  }

  /** With a front-matter block, what follows its first closing fence is trimmed. */
  lemma StripFrontMatterBlock(md: string, j: nat)
    requires FenceAt(md, 0) && IsClosingFence(md, j)
    ensures StripFrontMatter(md) == Trim(md[j + 3..])
  {
    ClosingFenceFound(md, j);
    TrimAfterTrimStart(md[j + 3..]);
  }

  /** What stands in for the context when neither page yields any text. */
  const Unavailable := "Resume data unavailable."

  /**
   * `getResumeData`: `about` and `summary` are the two pages' contents, `None`
   * where reading failed (the read's `.catch(() => '')`).
   */
  function ResumeData(about: Option<string>, summary: Option<string>): (r: string)
    ensures r != []
  {
    var combined := Trim(StripFrontMatter(about.GetOr("")) + "\n\n" + StripFrontMatter(summary.GetOr("")));
    if combined == [] then Unavailable else combined
  }

  /** Joining two trimmed texts with a blank line and trimming keeps the non-empty ones, in order. */
  lemma TrimJoin(a: string, b: string)
    requires a == [] || (!IsSpace(a[0]) && !IsSpace(a[|a| - 1]))
    requires b == [] || (!IsSpace(b[0]) && !IsSpace(b[|b| - 1]))
    ensures Trim(a + "\n\n" + b) == if a == [] then b else if b == [] then a else a + "\n\n" + b
  {
    var sep := "\n\n";
    assert AllSpace(sep);
    if a == [] {
      assert a + sep + b == sep + b;
      TrimStartSkipsSpace(sep, b);
      assert TrimStart(b) == b;
      if b == [] {
        assert sep + b == sep;
      }
    } else if b == [] {
      assert a + sep + b == a + sep;
      TrimEndSkipsSpace(a, sep);
      assert TrimStart(a + sep) == a + sep;
      assert TrimEnd(a) == a;
    } else {
      TrimmedIsFixed(a + sep + b);
    }
  }

  /**
   * The context is the stripped about page, then a blank line, then the stripped
   * summary page; an empty side contributes neither text nor separator, and when
   * both are empty the placeholder stands in.
   */
  lemma ResumeDataCases(about: Option<string>, summary: Option<string>)
    ensures var a, b := StripFrontMatter(about.GetOr("")), StripFrontMatter(summary.GetOr(""));
      && (a == [] && b == [] ==> ResumeData(about, summary) == Unavailable)
      && (a != [] && b != [] ==> ResumeData(about, summary) == a + "\n\n" + b)
      && (a != [] && b == [] ==> ResumeData(about, summary) == a)
      && (a == [] && b != [] ==> ResumeData(about, summary) == b)
  {
    TrimJoin(StripFrontMatter(about.GetOr("")), StripFrontMatter(summary.GetOr("")));
  }
}
