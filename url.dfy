/** Resolution of a URL reference against a base URL, the way
    `new URL(ref, base)` is used by the HTTP client. The resolution is the
    one of RFC 3986: the component split of Appendix B, the reference
    resolution of section 5.2 (5.2.2 transform references, 5.2.3 merge
    paths, 5.2.4 remove dot segments) and the recomposition of section 5.3.
    Three failures of the URL Standard parser behind `new URL` are
    modelled: a base without a scheme is not an absolute URL, a base such as
    "http://" has no host, and a base whose path is opaque (a non-special scheme such as the "localhost" of
    "localhost:3456/api/v1") cannot take a relative reference. The rest of
    the URL Standard (the character rules of a valid scheme, the port
    range up to 65535, lower-casing, default ports, host parsing,
    percent-encoding, "\" as "/") is not modelled, so the model resolves
    some bases that `new URL` refuses; `IsWebBase` and
    `IsWebPath` describe the inputs on which the two agree, and the lemmas
    about resolution are stated on those. */
module Url {
  import opened Wrappers

  /** The five components of a URI reference; an absent component is
      `None`, which is not the same as an empty one. */
  datatype Uri = Uri(
    scheme: Option<string>,
    authority: Option<string>,
    path: string,
    query: Option<string>,
    fragment: Option<string>)

  /** The index of the first character of `s` that is in `stop`, or `|s|`
      when there is none. */
  function Find(s: string, stop: set<char>): (i: nat)
    ensures i <= |s|
    ensures forall j :: 0 <= j < i ==> s[j] !in stop
    ensures i < |s| ==> s[i] in stop
  {
    if s == [] || s[0] in stop then 0 else 1 + Find(s[1..], stop)
  }

  /** The three properties of `Find` pin its result down. */
  lemma FindUnique(s: string, stop: set<char>, k: nat)
    requires k <= |s|
    requires forall j :: 0 <= j < k ==> s[j] !in stop
    requires k < |s| ==> s[k] in stop
    ensures Find(s, stop) == k
  {
    var i := Find(s, stop);
    assert !(i < k);
    assert !(k < i);
  }

  const SchemeEnd: set<char> := {':', '/', '?', '#'}
  const AuthorityEnd: set<char> := {'/', '?', '#'}
  const PathEnd: set<char> := {'?', '#'}

  /** The scheme, when the text starts with one, and what follows its
      ":". */
  function SplitScheme(s: string): (Option<string>, string)
  {
    var i := Find(s, SchemeEnd);
    if 0 < i < |s| && s[i] == ':' then (Some(s[..i]), s[i + 1..]) else (None, s)
  }

  /** The authority, when the text starts with "//", and what follows. */
  function SplitAuthority(s: string): (Option<string>, string)
  {
    if |s| >= 2 && s[..2] == "//" then
      var j := 2 + Find(s[2..], AuthorityEnd);
      (Some(s[2..j]), s[j..])
    else (None, s)
  }

  /** The path, and what follows it. */
  function SplitPath(s: string): (string, string)
  {
    var k := Find(s, PathEnd);
    (s[..k], s[k..])
  }

  /** The query, when the text starts with "?", and what follows. */
  function SplitQuery(s: string): (Option<string>, string)
  {
    if s != [] && s[0] == '?' then
      var m := 1 + Find(s[1..], {'#'});
      (Some(s[1..m]), s[m..])
    else (None, s)
  }

  /** The split of RFC 3986 Appendix B,
      `^(([^:/?#]+):)?(//([^/?#]*))?([^?#]*)(\?([^#]*))?(#(.*))?`. */
  function Parse(s: string): Uri
  {
    var (scheme, afterScheme) := SplitScheme(s);
    var (authority, hier) := SplitAuthority(afterScheme);
    var (path, tail) := SplitPath(hier);
    var (query, rest) := SplitQuery(tail);
    Uri(scheme, authority, path, query, if rest != [] then Some(rest[1..]) else None)
  }

  /** Section 5.3: the components written back as one string. */
  function Recompose(u: Uri): string
  {
    (if u.scheme.Some? then u.scheme.value + ":" else "")
    + (if u.authority.Some? then "//" + u.authority.value else "")
    + u.path
    + (if u.query.Some? then "?" + u.query.value else "")
    + (if u.fragment.Some? then "#" + u.fragment.value else "")
  }

  predicate HasPrefix(s: string, p: string)
  {
    |p| <= |s| && s[..|p|] == p
  }

  /** The output buffer with its last segment and the "/" before it (if
      any) removed. */
  function DropLastSegment(s: string): (r: string)
    ensures |r| <= |s| && r == s[..|r|]
  {
    if s == [] then []
    else if s[|s| - 1] == '/' then s[..|s| - 1]
    else DropLastSegment(s[..|s| - 1])
  }

  /** The length of the first path segment of `input`, with its leading
      "/" if it has one. */
  function FirstSegmentLength(input: string): (n: nat)
    requires input != []
    ensures 1 <= n <= |input|
    ensures n == |input| || input[n] == '/'
  {
    if input[0] == '/' then 1 + Find(input[1..], {'/'}) else Find(input, {'/'})
  }

  /** The input buffer starts with "." or "/.": only then can one of the
      steps 2A to 2D apply. */
  predicate DotStart(input: string)
  {
    input != [] && (input[0] == '.' || (input[0] == '/' && |input| >= 2 && input[1] == '.'))
  }

  /** Section 5.2.4, with the input buffer `input` and the output buffer
      `output`; each branch is one of the steps 2A to 2E. Step 2E moves the
      first segment when no dot step can apply. */
  function RemoveDots(input: string, output: string): string
    decreases |input|
  {
    if input == "" then output
    else if !DotStart(input) then
      var n := FirstSegmentLength(input);
      RemoveDots(input[n..], output + input[..n])
    else if HasPrefix(input, "../") then RemoveDots(input[3..], output)
    else if HasPrefix(input, "./") then RemoveDots(input[2..], output)
    else if HasPrefix(input, "/./") then RemoveDots(input[2..], output)
    else if input == "/." then RemoveDots("/", output)
    else if HasPrefix(input, "/../") then RemoveDots(input[3..], DropLastSegment(output))
    else if input == "/.." then RemoveDots("/", DropLastSegment(output))
    else if input == "." || input == ".." then output
    else
      var n := FirstSegmentLength(input);
      RemoveDots(input[n..], output + input[..n])
  }

  function RemoveDotSegments(path: string): string
  {
    RemoveDots(path, "")
  }

  /** A path up to and including its last "/", or empty when it has
      none. */
  function Directory(path: string): (d: string)
    ensures |d| <= |path| && d == path[..|d|]
    ensures d == [] || d[|d| - 1] == '/'
    ensures forall j :: |d| <= j < |path| ==> path[j] != '/'
  {
    if path == [] then []
    else if path[|path| - 1] == '/' then path
    else Directory(path[..|path| - 1])
  }

  /** The part of a base path that a relative path is appended to by
      section 5.2.3, for a base with an authority. */
  function MergeDirectory(basePath: string): string
  {
    if basePath == "" then "/" else Directory(basePath)
  }

  /** Section 5.2.3. */
  function Merge(base: Uri, refPath: string): string
  {
    if base.authority.Some? then MergeDirectory(base.path) + refPath
    else Directory(base.path) + refPath
  }

  /** Section 5.2.2, for the strict parser. */
  function Resolve(base: Uri, r: Uri): Uri
  {
    if r.scheme.Some? then
      Uri(r.scheme, r.authority, RemoveDotSegments(r.path), r.query, r.fragment)
    else if r.authority.Some? then
      Uri(base.scheme, r.authority, RemoveDotSegments(r.path), r.query, r.fragment)
    else if r.path == "" then
      Uri(base.scheme, base.authority, base.path, if r.query.Some? then r.query else base.query, r.fragment)
    else if r.path[0] == '/' then
      Uri(base.scheme, base.authority, RemoveDotSegments(r.path), r.query, r.fragment)
    else
      Uri(base.scheme, base.authority, RemoveDotSegments(Merge(base, r.path)), r.query, r.fragment)
  }

  /** The schemes the URL Standard calls special: they always have a host,
      and their path is never opaque. */
  predicate IsSpecialScheme(s: string)
  {
    s == "http" || s == "https" || s == "ws" || s == "wss" || s == "ftp" || s == "file"
  }

  /** A base whose path is opaque under the URL Standard: a non-special
      scheme followed by neither "//" nor "/". */
  predicate HasOpaquePath(b: Uri)
  {
    b.scheme.Some? && !IsSpecialScheme(b.scheme.value) && b.authority.None? && (b.path == "" || b.path[0] != '/')
  }

  /** A base with a special scheme other than "file" whose "//" is followed
      by nothing but a query or fragment, such as "http://": the URL
      Standard finds no host in it and fails. */
  predicate HasEmptyHost(b: Uri)
  {
    b.scheme.Some? && IsSpecialScheme(b.scheme.value) && b.scheme.value != "file"
    && b.authority == Some("") && b.path == ""
  }

  /** `new URL(ref, base).toString()`, or `None` for the failures of the
      constructor that are modelled: the base has no scheme or no host, or
      the base path is opaque and the reference has no scheme and is not a
      bare fragment. */
  function NewUrl(ref: string, base: string): (r: Option<string>)
    ensures r.None? <==> Parse(base).scheme.None? || HasEmptyHost(Parse(base))
                         || (HasOpaquePath(Parse(base)) && Parse(ref).scheme.None? && !(ref != [] && ref[0] == '#'))
  {
    var b := Parse(base);
    var u := Parse(ref);
    if b.scheme.None? || HasEmptyHost(b) then None
    else if HasOpaquePath(b) && u.scheme.None? && !(ref != [] && ref[0] == '#') then None
    else Some(Recompose(Resolve(b, u)))
  }

  // ---------------------------------------------------------------------
  // Resolving a plain relative path against an absolute base
  // ---------------------------------------------------------------------

  /** No segment of `p` starts with ".": in particular none is "." or
      "..". */
  predicate NoDotSegments(p: string)
  {
    && (p != [] ==> p[0] != '.')
    && forall i, j :: 0 <= i < |p| && 0 <= j < |p| && j == i + 1 && p[i] == '/' ==> p[j] != '.'
  }

  /** A text that cannot end a component it sits in. */
  predicate Avoids(s: string, stop: set<char>)
  {
    forall i :: 0 <= i < |s| ==> s[i] !in stop
  }

  // ---------------------------------------------------------------------
  // The inputs on which the URL Standard agrees with RFC 3986
  // ---------------------------------------------------------------------

  predicate IsWebScheme(scheme: string)
  {
    scheme == "http" || scheme == "https"
  }

  predicate IsLower(c: char)
  {
    'a' <= c <= 'z'
  }

  predicate IsDigit(c: char)
  {
    '0' <= c <= '9'
  }

  /** A host name the URL Standard's host parser keeps as it is: lower-case
      letters, digits, "-" and "."; a letter first and after every "." (so
      it is neither an IPv4 address nor has an empty label) and no "--" (so
      no label is an IDNA "xn--" label). */
  predicate IsWebHost(h: string)
  {
    && h != [] && IsLower(h[0])
    && (forall i :: 0 <= i < |h| ==> IsLower(h[i]) || IsDigit(h[i]) || h[i] == '-' || h[i] == '.')
    && (forall i, j :: 0 <= i < |h| && 0 <= j < |h| && j == i + 1 && h[i] == '.' ==> IsLower(h[j]))
    && (forall i, j :: 0 <= i < |h| && 0 <= j < |h| && j == i + 1 && h[i] == '-' ==> h[j] != '-')
  }

  /** A port the URL Standard writes back as it is: one to four digits,
      no leading zero, and not the scheme's default port (which it
      drops). */
  predicate IsWebPort(scheme: string, port: string)
  {
    && 1 <= |port| <= 4 && port[0] != '0'
    && (forall i :: 0 <= i < |port| ==> IsDigit(port[i]))
    && port != (if scheme == "http" then "80" else "443")
  }

  /** `host` or `host:port`, without user information. */
  predicate IsWebAuthority(scheme: string, authority: string)
  {
    var k := Find(authority, {':'});
    IsWebHost(authority[..k]) && (k < |authority| ==> IsWebPort(scheme, authority[k + 1..]))
  }

  /** A path character that the URL Standard neither percent-encodes nor
      reads as a separator: the unreserved and sub-delimiter characters of
      RFC 3986, ":", "@" and "/". */
  predicate IsWebPathChar(c: char)
  {
    IsLower(c) || 'A' <= c <= 'Z' || IsDigit(c) || c in "-._~!$&'()*+,;=:@/"
  }

  predicate IsWebPath(p: string)
  {
    forall i :: 0 <= i < |p| ==> IsWebPathChar(p[i])
  }

  /** A base `scheme://authority` + `path` that the URL Standard parses into
      these very components and serializes back unchanged. */
  predicate IsWebBase(scheme: string, authority: string, path: string)
  {
    IsWebScheme(scheme) && IsWebAuthority(scheme, authority) && IsWebPath(path)
  }

  /** A web base has the components the strict split reads back. */
  lemma WebBaseSplits(scheme: string, authority: string, path: string)
    requires IsWebBase(scheme, authority, path)
    ensures scheme != [] && Avoids(scheme, SchemeEnd)
    ensures Avoids(authority, AuthorityEnd)
    ensures Avoids(path, PathEnd)
  {
    var k := Find(authority, {':'});
    forall i | 0 <= i < |authority|
      ensures authority[i] !in AuthorityEnd
    {
      if i < k {
        assert authority[i] == authority[..k][i];
      } else if i > k {
        assert authority[i] == authority[k + 1..][i - k - 1];
      }
    }
    forall i | 0 <= i < |path|
      ensures path[i] !in PathEnd
    {
      assert IsWebPathChar(path[i]);
    }
  }

  /** A reference that is a relative path: not empty, not starting with "/",
      no query or fragment, no ":" in its first segment (which would make
      its head a scheme) and no segment starting with ".". */
  predicate IsPlainRelativePath(ref: string)
  {
    && ref != [] && ref[0] != '/'
    && Avoids(ref, PathEnd)
    && (forall j :: 0 <= j < Find(ref, {'/'}) ==> ref[j] != ':')
    && NoDotSegments(ref)
  }

  /** A path without dot segments that is empty or starts with "/" comes out
      of step 5.2.4 unchanged. */
  lemma {:induction false} RemoveDotsKeeps(p: string, output: string)
    requires p == "" || p[0] == '/'
    requires NoDotSegments(p)
    ensures RemoveDots(p, output) == output + p
    decreases |p|
  {
    if p != "" {
      var n := FirstSegmentLength(p);
      KeepsStep(p, output);
      RemoveDotsKeeps(p[n..], output + p[..n]);
    }
  }

  /** One step of `RemoveDotsKeeps`: the first segment moves to the output,
      and what is left still has the property. */
  lemma KeepsStep(p: string, output: string)
    requires p != "" && p[0] == '/' && NoDotSegments(p)
    ensures var n := FirstSegmentLength(p);
      && RemoveDots(p, output) == RemoveDots(p[n..], output + p[..n])
      && NoDotSegments(p[n..]) && (p[n..] == "" || p[n..][0] == '/')
      && output + p[..n] + p[n..] == output + p
  {
    var n := FirstSegmentLength(p);
    SecondNotDot(p);
    RemoveDotsStep(p, output);
    NoDotSegmentsSuffix(p, n);
    SplitAt(output, p, n);
  }

  /** A path starting with "/" and without dot segments has no "." after
      that "/". */
  lemma SecondNotDot(p: string)
    requires p != "" && p[0] == '/' && NoDotSegments(p)
    ensures |p| == 1 || p[1] != '.'
  {
    if |p| > 1 {
      assert p[0] == '/';
    }
  }

  lemma SplitAt(output: string, p: string, n: nat)
    requires n <= |p|
    ensures output + p[..n] + p[n..] == output + p
  {
    assert output + p[..n] + p[n..] == output + (p[..n] + p[n..]);
    assert p[..n] + p[n..] == p;
  }

  /** A path that starts with "/" followed by anything but "." loses nothing
      in one step of 5.2.4: its first segment moves to the output. */
  lemma RemoveDotsStep(p: string, output: string)
    requires p != "" && p[0] == '/' && (|p| == 1 || p[1] != '.')
    ensures RemoveDots(p, output) == RemoveDots(p[FirstSegmentLength(p)..], output + p[..FirstSegmentLength(p)])
  {
    assert !DotStart(p);
  }

  /** A suffix starting at a "/" keeps the property. */
  lemma NoDotSegmentsSuffix(p: string, n: nat)
    requires NoDotSegments(p) && n <= |p| && (n == |p| || p[n] == '/')
    ensures NoDotSegments(p[n..])
  {
    var q := p[n..];
    forall i, j | 0 <= i < |q| && 0 <= j < |q| && j == i + 1 && q[i] == '/'
      ensures q[j] != '.'
    {
      assert q[i] == p[n + i] && q[j] == p[n + j];
    }
  }

  /** A directory (ending in "/") followed by a relative path keeps the
      property when both parts have it. */
  lemma NoDotSegmentsAppend(d: string, r: string)
    requires d == [] || d[|d| - 1] == '/'
    requires NoDotSegments(d) && NoDotSegments(r)
    ensures NoDotSegments(d + r)
  {
    var p := d + r;
    forall i, j | 0 <= i < |p| && 0 <= j < |p| && j == i + 1 && p[i] == '/'
      ensures p[j] != '.'
    {
      if i >= |d| {
        assert p[i] == r[i - |d|] && p[j] == r[j - |d|];
      } else if j < |d| {
        assert p[i] == d[i] && p[j] == d[j];
      } else {
        assert p[j] == r[0];
      }
    }
  }

  /** The directory of a path keeps the property. */
  lemma NoDotSegmentsDirectory(p: string)
    requires NoDotSegments(p)
    ensures NoDotSegments(Directory(p))
  {
    var d := Directory(p);
    forall i, j | 0 <= i < |d| && 0 <= j < |d| && j == i + 1 && d[i] == '/'
      ensures d[j] != '.'
    {
      assert d[i] == p[i] && d[j] == p[j];
    }
  }

  /** An absolute URL `scheme://authority/path` splits into its parts. */
  lemma ParseAbsolute(scheme: string, authority: string, path: string)
    requires scheme != [] && Avoids(scheme, SchemeEnd)
    requires Avoids(authority, AuthorityEnd)
    requires path == "" || path[0] == '/'
    requires Avoids(path, PathEnd)
    ensures Parse(scheme + "://" + authority + path) == Uri(Some(scheme), Some(authority), path, None, None)
  {
    var s := scheme + "://" + authority + path;
    var afterScheme := "//" + authority + path;
    FindUnique(s, SchemeEnd, |scheme|);
    assert s[..|scheme|] == scheme && s[|scheme| + 1..] == afterScheme;
    assert SplitScheme(s) == (Some(scheme), afterScheme);
    assert afterScheme[..2] == "//" && afterScheme[2..] == authority + path;
    FindUnique(authority + path, AuthorityEnd, |authority|);
    assert afterScheme[2..2 + |authority|] == authority && afterScheme[2 + |authority|..] == path;
    assert SplitAuthority(afterScheme) == (Some(authority), path);
    SplitPathWhole(path);
  }

  /** A text without "?" and "#" is all path. */
  lemma SplitPathWhole(path: string)
    requires Avoids(path, PathEnd)
    ensures SplitPath(path) == (path, "")
    ensures SplitQuery("") == (None, "")
  {
    FindUnique(path, PathEnd, |path|);
    assert path[..|path|] == path && path[|path|..] == "";
  }

  /** A plain relative path parses as a path alone. */
  lemma ParsePlainRelative(ref: string)
    requires IsPlainRelativePath(ref)
    ensures Parse(ref) == Uri(None, None, ref, None, None)
  {
    var i := Find(ref, SchemeEnd);
    var f := Find(ref, {'/'});
    assert i <= f;
    assert i < |ref| ==> ref[i] != ':';
    assert SplitScheme(ref) == (None, ref);
    assert !(|ref| >= 2 && ref[..2] == "//");
    assert SplitAuthority(ref) == (None, ref);
    SplitPathWhole(ref);
  }

  /** Resolving a plain relative path against a web base
      `scheme://authority/path` keeps the scheme and authority and replaces
      the last segment of the base path by the reference: everything after
      the last "/" of the base path is lost. */
  lemma ResolvePlainRelative(scheme: string, authority: string, basePath: string, ref: string)
    requires IsWebBase(scheme, authority, basePath)
    requires basePath == "" || basePath[0] == '/'
    requires NoDotSegments(basePath)
    requires IsPlainRelativePath(ref) && IsWebPath(ref)
    ensures NewUrl(ref, scheme + "://" + authority + basePath)
         == Some(scheme + "://" + authority + MergeDirectory(basePath) + ref)
  {
    var base := Uri(Some(scheme), Some(authority), basePath, None, None);
    WebBaseSplits(scheme, authority, basePath);
    ParseAbsolute(scheme, authority, basePath);
    ParsePlainRelative(ref);
    WebAuthorityNonEmpty(scheme, authority);
    NewUrlResolves(ref, scheme + "://" + authority + basePath);
    var dir := MergeDirectory(basePath);
    MergedPathKept(base, ref);
    var resolved := Resolve(base, Uri(None, None, ref, None, None));
    assert resolved == Uri(Some(scheme), Some(authority), dir + ref, None, None);
    RecomposeAbsolute(scheme, authority, dir + ref);
    assert scheme + "://" + authority + (dir + ref) == scheme + "://" + authority + dir + ref;
  }

  /** A base `scheme:rest` with a non-special scheme and a `rest` that does
      not start with "/" has an opaque path: no relative path resolves
      against it. */
  lemma OpaqueBaseRejects(scheme: string, rest: string, ref: string)
    requires scheme != [] && Avoids(scheme, SchemeEnd) && !IsSpecialScheme(scheme)
    requires rest == [] || rest[0] != '/'
    requires IsPlainRelativePath(ref)
    ensures NewUrl(ref, scheme + ":" + rest) == None
  {
    var s := scheme + ":" + rest;
    FindUnique(s, SchemeEnd, |scheme|);
    assert s[..|scheme|] == scheme && s[|scheme| + 1..] == rest;
    assert SplitScheme(s) == (Some(scheme), rest);
    assert SplitAuthority(rest) == (None, rest);
    var k := Find(rest, PathEnd);
    assert k > 0 ==> rest[..k][0] == rest[0];
    ParsePlainRelative(ref);
  }

  /** A web authority is never empty: it starts with a host name. */
  lemma WebAuthorityNonEmpty(scheme: string, authority: string)
    requires IsWebAuthority(scheme, authority)
    ensures authority != ""
  {
    var k := Find(authority, {':'});
    assert authority[..k] != [];
  }

  /** On a base that has a scheme and a host and whose path is not opaque,
      `new URL` gives the resolved reference. */
  lemma NewUrlResolves(ref: string, base: string)
    requires Parse(base).scheme.Some? && !HasEmptyHost(Parse(base)) && !HasOpaquePath(Parse(base))
    ensures NewUrl(ref, base) == Some(Recompose(Resolve(Parse(base), Parse(ref))))
  {
  }

  /** "http://" and "https://" have no host: nothing resolves against
      them. */
  lemma EmptyHostBaseRejects(scheme: string, ref: string)
    requires scheme == "http" || scheme == "https"
    ensures NewUrl(ref, scheme + "://") == None
  {
    var s := scheme + "://";
    assert Parse(s) == Uri(Some(scheme), Some(""), "", None, None) by {
      ParseAbsolute(scheme, "", "");
      assert scheme + "://" + "" + "" == s;
    }
  }

  /** An absolute URL without query and fragment is written
      `scheme://authority/path`. */
  lemma RecomposeAbsolute(scheme: string, authority: string, path: string)
    ensures Recompose(Uri(Some(scheme), Some(authority), path, None, None)) == scheme + "://" + authority + path
  {
    var head := scheme + ":" + "//" + authority + path;
    assert head + "" + "" == head;
    assert scheme + ":" + "//" == scheme + "://";
  }

  /** Merging a plain relative path into a base path without dot segments
      gives a path that step 5.2.4 keeps as it is. */
  lemma MergedPathKept(base: Uri, ref: string)
    requires base.authority.Some?
    requires base.path == "" || base.path[0] == '/'
    requires NoDotSegments(base.path)
    requires IsPlainRelativePath(ref)
    ensures Merge(base, ref) == MergeDirectory(base.path) + ref
    ensures RemoveDotSegments(Merge(base, ref)) == Merge(base, ref)
  {
    var dir := MergeDirectory(base.path);
    if base.path != "" {
      NoDotSegmentsDirectory(base.path);
      assert Directory(base.path) != [] by {
        assert base.path[0] == '/';
      }
    }
    NoDotSegmentsAppend(dir, ref);
    RemoveDotsKeeps(dir + ref, "");
  }

  /** The "/api/v1" prefix of an API URL loses its last segment: the path
      "tasks/1" resolves to "/api/tasks/1". */
  lemma ApiVersionSegmentIsReplaced(base: string, path: string)
    requires base == "http://h/api/v1" && path == "tasks/1"
    ensures NewUrl(path, base) == Some("http://h/api/tasks/1")
  {
    ExampleText();
    ExampleComponents();
    ExampleReference();
    ExampleDirectory();
    ResolvePlainRelative("http", "h", "/api/v1", path);
  }

  lemma ExampleText()
    ensures "http" + "://" + "h" + "/api/v1" == "http://h/api/v1"
    ensures "http" + "://" + "h" + "/api/" + "tasks/1" == "http://h/api/tasks/1"
  {
  }

  lemma ExampleComponents()
    ensures IsWebBase("http", "h", "/api/v1") && NoDotSegments("/api/v1")
    ensures IsWebPath("tasks/1")
  {
    FindUnique("h", {':'}, 1);
    assert "h"[..1] == "h";
  }

  lemma ExampleReference()
    ensures IsPlainRelativePath("tasks/1")
  {
    FindUnique("tasks/1", {'/'}, 5);
  }

  lemma ExampleDirectory()
    ensures MergeDirectory("/api/v1") == "/api/"
  {
    assert Directory("/api/v1") == "/api/";
  }
}
