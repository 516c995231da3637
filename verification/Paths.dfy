/** The file names of canonical records and generated indexes. */
module Paths {
  import opened Model

  datatype RecordType = Technology | Pattern | Pipeline | Source

  /** The type's name in lower case, as it starts a record's file name. */
  function Slug(t: RecordType): string {
    match t
    case Technology => "technology"
    case Pattern => "pattern"
    case Pipeline => "pipeline"
    case Source => "source"
  }

  /** The type's name as it stands in a record's header. */
  function Label(t: RecordType): string {
    match t
    case Technology => "TECHNOLOGY"
    case Pattern => "PATTERN"
    case Pipeline => "PIPELINE"
    case Source => "SOURCE"
  }

  predicate LowerOrDigit(c: char) {
    'a' <= c <= 'z' || '0' <= c <= '9'
  }

  predicate Word(s: string) {
    s != [] && forall i :: 0 <= i < |s| ==> 'A' <= s[i] <= 'Z' || '0' <= s[i] <= '9' || s[i] == '_'
  }

  /** `[0-9]{2}_[A-Z0-9_]+` or `SOURCES`. */
  predicate DomainName(s: string) {
    s == "SOURCES" || (|s| > 3 && '0' <= s[0] <= '9' && '0' <= s[1] <= '9' && s[2] == '_' && Word(s[3..]))
  }

  /** `[a-z0-9]+(-[a-z0-9]+)*`. */
  predicate SlugName(s: string) {
    && s != [] && s[0] != '-' && s[|s| - 1] != '-'
    && (forall i :: 0 <= i < |s| ==> LowerOrDigit(s[i]) || s[i] == '-')
    && (forall i :: 0 <= i < |s| - 1 ==> s[i] != '-' || s[i + 1] != '-')
  }

  /** `stem`, then a slug, then `.md`. */
  predicate MarkdownAfter(stem: string, s: string) {
    && stem <= s && |s| > |stem| + 3
    && s[|s| - 3..] == ".md"
    && SlugName(s[|stem|..|s| - 3])
  }

  function BaseName(p: Path): string {
    if '/' in p then BaseName(p[1..]) else p
  }

  /** The raw-record file name contract of the publisher. */
  predicate RecordNamed(p: Path) {
    exists t: RecordType :: MarkdownAfter(Slug(t) + "-", BaseName(p))
  }

  function DomainIndex(domain: string): Path {
    LIBRARY + domain + "/INDEX.md"
  }

  predicate IndexPath(p: Path) {
    p == MASTER || (LIBRARY <= p && |p| >= |LIBRARY| + 9 && p[|p| - 9..] == "/INDEX.md")
  }

  lemma {:induction false} BaseNameIsSuffix(p: Path)
    ensures |BaseName(p)| <= |p| && p[|p| - |BaseName(p)|..] == BaseName(p)
    decreases |p|
  {
    if '/' in p {
      BaseNameIsSuffix(p[1..]);
    }
  }

  lemma {:induction false} BaseNameOf(dir: string, name: string)
    requires '/' !in name
    ensures BaseName(dir + "/" + name) == name
    decreases |dir|
  {
    var p := dir + "/" + name;
    assert p[|dir|] == '/';
    if dir == [] {
      assert p[1..] == name;
    } else {
      assert p[1..] == dir[1..] + "/" + name;
      BaseNameOf(dir[1..], name);
    }
  }

  /** Below a directory, the base name is what follows it. */
  lemma MarkdownUnder(dir: string, stem: string, p: Path)
    requires MarkdownAfter(dir + "/" + stem, p) && '/' !in stem
    ensures dir + "/" <= p && MarkdownAfter(stem, BaseName(p))
  {
    var full := dir + "/" + stem;
    var name := stem + p[|full|..];
    assert p == full + p[|full|..] == dir + "/" + name;
    var slug := p[|full|..|p| - 3];
    assert p[|full|..] == slug + p[|p| - 3..];
    assert name == stem + slug + ".md";
    NameAfterStem(stem, slug);
    BaseNameOf(dir, name);
  }

  lemma NameAfterStem(stem: string, slug: string)
    requires SlugName(slug)
    ensures MarkdownAfter(stem, stem + slug + ".md")
    ensures '/' !in stem ==> '/' !in stem + slug + ".md"
  {
    var s := stem + slug + ".md";
    assert s[|stem|..|s| - 3] == slug && s[|s| - 3..] == ".md" && stem <= s;
    SlugHasNoSlash(slug);
  }

  lemma SlugHasNoSlash(s: string)
    requires SlugName(s)
    ensures '/' !in s
  {
  }

  lemma MarkdownEnd(stem: string, s: string)
    requires MarkdownAfter(stem, s)
    ensures |s| >= 4 && LowerOrDigit(s[|s| - 4])
  {
    var slug := s[|stem|..|s| - 3];
    assert slug[|slug| - 1] == s[|s| - 4];
  }

  lemma IndexEnd(p: Path)
    requires IndexPath(p)
    ensures |p| >= 4 && p[|p| - 4] == 'X'
  {
    if p != MASTER {
      assert p[|p| - 4] == p[|p| - 9..][5];
    }
  }

  /** No file is both a record and a generated index. */
  lemma RecordIsNotIndex(p: Path)
    requires RecordNamed(p)
    ensures !IndexPath(p)
  {
    var t: RecordType :| MarkdownAfter(Slug(t) + "-", BaseName(p));
    MarkdownEnd(Slug(t) + "-", BaseName(p));
    BaseNameIsSuffix(p);
    var name := BaseName(p);
    assert p[|p| - 4] == p[|p| - |name|..][|name| - 4];
    if IndexPath(p) {
      IndexEnd(p);
    }
  }

  lemma DomainIndexIsIndex(domain: string)
    ensures IndexPath(DomainIndex(domain)) && Canonical(DomainIndex(domain))
  {
    var p := DomainIndex(domain);
    assert p == LIBRARY + (domain + "/INDEX.md");
    assert p[|p| - 9..] == "/INDEX.md";
  }

  lemma DomainIndexInjective(d: string, d': string)
    requires DomainIndex(d) == DomainIndex(d')
    ensures d == d'
  {
    assert DomainIndex(d)[|LIBRARY|..|LIBRARY| + |d|] == d;
    assert DomainIndex(d')[|LIBRARY|..|LIBRARY| + |d'|] == d';
  }

  lemma PrivateIsNotCanonical(p: Path)
    requires Private(p)
    ensures !Canonical(p)
  {
    assert CANDIDATES[0] != LIBRARY[0];
  }
}
