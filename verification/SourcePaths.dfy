/** normalizeSource and isWithinRoot over POSIX paths. */
module SourcePaths {
  import opened Outcomes
  import opened Texts

  // ---------------------------------------------------------------- path.normalize and path.relative

  const SLASH := '/'

  predicate Absolute(p: string) {
    p != "" && p[0] == SLASH
  }

  predicate Trailing(p: string) {
    p != "" && p[|p| - 1] == SLASH
  }

  /** Segments read onto those already kept: empty ones and "." are dropped, ".." takes one away; above the start
      it is kept for a relative path and dropped for an absolute one. */
  function Resolve(kept: seq<string>, parts: seq<string>, above: bool): seq<string>
    decreases |parts|
  {
    if parts == [] then kept
    else if parts[0] == "" || parts[0] == "." then Resolve(kept, parts[1..], above)
    else if parts[0] != ".." then Resolve(kept + [parts[0]], parts[1..], above)
    else if kept != [] && kept[|kept| - 1] != ".." then Resolve(kept[..|kept| - 1], parts[1..], above)
    else Resolve(if above then kept + [".."] else kept, parts[1..], above)
  }

  function Segments(p: string): seq<string> {
    Resolve([], Split(p, SLASH), !Absolute(p))
  }

  function Normalize(p: string): string {
    var joined := Join(Segments(p), SLASH) + if Segments(p) != [] && Trailing(p) then "/" else "";
    if p == "" then "."
    else if Absolute(p) then "/" + joined
    else if Segments(p) == [] then (if Trailing(p) then "./" else ".")
    else joined
  }

  function Common(a: seq<string>, b: seq<string>): (n: nat)
    ensures n <= |a| && n <= |b| && a[..n] == b[..n]
    ensures n < |a| && n < |b| ==> a[n] != b[n]
  {
    if a == [] || b == [] || a[0] != b[0] then 0 else Common(a[1..], b[1..]) + 1
  }

  function Ups(n: nat): (r: seq<string>)
    ensures |r| == n && forall i :: 0 <= i < n ==> r[i] == ".."
  {
    seq(n, _ => "..")
  }

  /** path.relative of two absolute paths. */
  function Relative(from: string, to: string): string {
    var a, b := Segments(from), Segments(to);
    var n := Common(a, b);
    Join(Ups(|a| - n) + b[n..], SLASH)
  }

  predicate IsWithinRoot(root: string, target: string) {
    && Absolute(root) && Absolute(target)
    && var relative := Relative(Normalize(root), Normalize(target));
       relative == "" || (!(".." <= relative) && !Absolute(relative))
  }

  // ---------------------------------------------------------------- laws of paths

  /** A segment that a path keeps as it is. */
  predicate PlainPart(part: string) {
    part != "" && part != "." && part != ".." && SLASH !in part
  }

  predicate AllPlain(parts: seq<string>) {
    forall part :: part in parts ==> PlainPart(part)
  }

  lemma {:induction false} ResolvePlain(kept: seq<string>, parts: seq<string>)
    requires AllPlain(kept) && Free(parts, SLASH)
    ensures AllPlain(Resolve(kept, parts, false))
    decreases |parts|
  {
    if parts != [] {
      assert parts[0] in parts;
      assert forall part :: part in parts[1..] ==> part in parts;
      if parts[0] == "" || parts[0] == "." {
        ResolvePlain(kept, parts[1..]);
      } else if parts[0] != ".." {
        ResolvePlain(kept + [parts[0]], parts[1..]);
      } else if kept != [] {
        assert kept[|kept| - 1] in kept;
        assert forall part :: part in kept[..|kept| - 1] ==> part in kept;
        ResolvePlain(kept[..|kept| - 1], parts[1..]);
      } else {
        ResolvePlain(kept, parts[1..]);
      }
    }
  }

  lemma {:induction false} ResolveKeeps(kept: seq<string>, parts: seq<string>, above: bool)
    requires AllPlain(parts)
    ensures Resolve(kept, parts, above) == kept + parts
    decreases |parts|
  {
    if parts == [] {
      assert kept + parts == kept;
    } else {
      assert parts[0] in parts && forall part :: part in parts[1..] ==> part in parts;
      ResolveKeeps(kept + [parts[0]], parts[1..], above);
      assert kept + [parts[0]] + parts[1..] == kept + parts;
    }
  }

  lemma {:induction false} ResolveAppend(kept: seq<string>, a: seq<string>, b: seq<string>, above: bool)
    ensures Resolve(kept, a + b, above) == Resolve(Resolve(kept, a, above), b, above)
    decreases |a|
  {
    if a == [] {
      assert a + b == b;
    } else {
      assert (a + b)[0] == a[0] && (a + b)[1..] == a[1..] + b;
      if a[0] == "" || a[0] == "." {
        ResolveAppend(kept, a[1..], b, above);
      } else if a[0] != ".." {
        ResolveAppend(kept + [a[0]], a[1..], b, above);
      } else if kept != [] && kept[|kept| - 1] != ".." {
        ResolveAppend(kept[..|kept| - 1], a[1..], b, above);
      } else {
        ResolveAppend(if above then kept + [".."] else kept, a[1..], b, above);
      }
    }
  }

  lemma SegmentsPlain(p: string)
    requires Absolute(p)
    ensures AllPlain(Segments(p))
  {
    SplitFree(p, SLASH);
    ResolvePlain([], Split(p, SLASH));
  }

  lemma {:induction false} JoinEnds(parts: seq<string>)
    requires parts != [] && AllPlain(parts)
    ensures var j := Join(parts, SLASH); j != "" && j[0] != SLASH && j[|j| - 1] != SLASH
    ensures ".." <= Join(parts, SLASH) <==> ".." <= parts[0]
    decreases |parts|
  {
    assert parts[0] in parts;
    if |parts| > 1 {
      assert forall part :: part in parts[1..] ==> part in parts;
      JoinEnds(parts[1..]);
      var j := Join(parts, SLASH);
      assert j[..|parts[0]|] == parts[0] && j[|parts[0]|] == SLASH;
      assert j[|j| - 1] == Join(parts[1..], SLASH)[|Join(parts[1..], SLASH)| - 1];
    }
  }

  /** The segments of a slash, plain segments and perhaps a trailing slash. */
  lemma SegmentsOf(parts: seq<string>, trailing: bool)
    requires AllPlain(parts)
    ensures Segments("/" + Join(parts, SLASH) + if trailing then "/" else "") == parts
  {
    var j := Join(parts, SLASH);
    var p := "/" + j + if trailing then "/" else "";
    if parts != [] {
      SplitJoin(parts, SLASH);
    } else {
      SplitWhole("", SLASH);
    }
    var inner := Split(j, SLASH);
    SplitWhole("", SLASH);
    SplitConcat("", j, SLASH);
    assert "" + [SLASH] + j == "/" + j;
    if trailing {
      SplitConcat("/" + j, "", SLASH);
      assert "/" + j + [SLASH] + "" == p;
    } else {
      assert p == "/" + j;
    }
    var tail := if trailing then [""] else [];
    assert Split(p, SLASH) == [""] + inner + tail;
    ResolveAppend([], [""] + inner, tail, false);
    ResolveAppend([], [""], inner, false);
    assert Resolve([], [""], false) == [];
    assert forall kept :: Resolve(kept, tail, false) == kept;
    if parts == [] {
      assert Resolve([], inner, false) == [];
    } else {
      ResolveKeeps([], parts, false);
      assert [] + parts == parts;
    }
  }

  /** Normalising an absolute path keeps its segments, and a second time changes nothing. */
  lemma NormalizeTwice(p: string)
    requires Absolute(p)
    ensures Absolute(Normalize(p)) && Segments(Normalize(p)) == Segments(p)
    ensures Normalize(Normalize(p)) == Normalize(p)
  {
    var parts := Segments(p);
    SegmentsPlain(p);
    var trailing := parts != [] && Trailing(p);
    var n := "/" + Join(parts, SLASH) + if trailing then "/" else "";
    assert Normalize(p) == n;
    SegmentsOf(parts, trailing);
    if parts != [] {
      JoinEnds(parts);
      assert !trailing ==> n[|n| - 1] == Join(parts, SLASH)[|Join(parts, SLASH)| - 1];
    }
  }

  lemma {:induction false} ResolveAboveFree(kept: seq<string>, parts: seq<string>)
    requires Free(parts, SLASH)
    requires forall part :: part in kept ==> part != "" && SLASH !in part
    ensures forall part :: part in Resolve(kept, parts, true) ==> part != "" && SLASH !in part
    decreases |parts|
  {
    if parts != [] {
      assert parts[0] in parts;
      assert forall part :: part in parts[1..] ==> part in parts;
      if parts[0] == "" || parts[0] == "." {
        ResolveAboveFree(kept, parts[1..]);
      } else if parts[0] != ".." {
        ResolveAboveFree(kept + [parts[0]], parts[1..]);
      } else if kept != [] && kept[|kept| - 1] != ".." {
        assert forall part :: part in kept[..|kept| - 1] ==> part in kept;
        ResolveAboveFree(kept[..|kept| - 1], parts[1..]);
      } else {
        ResolveAboveFree(kept + [".."], parts[1..]);
      }
    }
  }

  /** A relative path never normalises to an absolute one. */
  lemma RelativeStays(p: string)
    requires !Absolute(p)
    ensures !Absolute(Normalize(p))
  {
    SplitFree(p, SLASH);
    ResolveAboveFree([], Split(p, SLASH));
    var parts := Segments(p);
    if parts != [] {
      assert parts[0] in parts;
      assert Join(parts, SLASH)[0] == parts[0][0];
    }
  }

  /** The target lies in the root by segment prefix. */
  predicate Under(root: string, target: string) {
    Absolute(root) && Absolute(target) && Segments(root) <= Segments(target)
  }

  predicate DotsFirst(root: string, target: string) {
    |Segments(root)| < |Segments(target)| && ".." <= Segments(target)[|Segments(root)|]
  }

  lemma CommonPrefix(a: seq<string>, b: seq<string>)
    ensures Common(a, b) == |a| <==> a <= b
  {
    assert a <= b ==> forall i :: 0 <= i < |a| ==> a[i] == b[i];
  }

  lemma UpsFirst(a: seq<string>, b: seq<string>)
    requires !(a <= b)
    ensures ".." <= Join(Ups(|a| - Common(a, b)) + b[Common(a, b)..], SLASH)
  {
    CommonPrefix(a, b);
    var parts := Ups(|a| - Common(a, b)) + b[Common(a, b)..];
    assert parts[0] == "..";
    var j := Join(parts, SLASH);
    assert j[..2] == "..";
  }

  /** isWithinRoot accepts exactly the targets under the root, except those whose first segment below it begins
      with two dots. */
  lemma WithinRootIff(root: string, target: string)
    ensures IsWithinRoot(root, target) <==> Under(root, target) && !DotsFirst(root, target)
  {
    if Absolute(root) && Absolute(target) {
      NormalizeTwice(root);
      NormalizeTwice(target);
      SegmentsPlain(target);
      var a, b := Segments(root), Segments(target);
      CommonPrefix(a, b);
      if a <= b {
        var rest := b[|a|..];
        assert Ups(0) + rest == rest;
        assert forall part :: part in rest ==> part in b;
        if rest != [] {
          JoinEnds(rest);
        }
      } else {
        UpsFirst(a, b);
      }
    }
  }

  // ---------------------------------------------------------------- normalizeSource

  datatype Kind = TypedFile | TypedUrl | Untyped

  /** "" stands for a property that is missing, empty or not a string. */
  datatype Source = NotAnObject | Source(kind: Kind, path: string, filePath: string, url: string)

  datatype Execution = FileSource(filePath: string, url: string) | UrlSource(url: string)

  datatype Error = Invalid | Traversal | BadProtocol

  const PREFIX := "/public/audio/"

  predicate Letter(c: char) {
    'a' <= c <= 'z' || 'A' <= c <= 'Z'
  }

  predicate SchemeTail(c: char) {
    Letter(c) || '0' <= c <= '9' || c == '+' || c == '.' || c == '-'
  }

  predicate HasProtocol(url: string) {
    exists i :: 1 <= i < |url| && url[i] == ':' && Letter(url[0]) && forall k :: 1 <= k < i ==> SchemeTail(url[k])
  }

  function Lower(c: char): char {
    if 'A' <= c <= 'Z' then (c as int + 32) as char else c
  }

  /** The url begins with the prefix, whatever the case of its letters. */
  predicate Begins(url: string, prefix: string) {
    |prefix| <= |url| && forall i :: 0 <= i < |prefix| ==> Lower(url[i]) == prefix[i]
  }

  predicate IsHttp(url: string) {
    Begins(url, "http://") || Begins(url, "https://")
  }

  function WithoutSlash(p: string): string {
    if Absolute(p) then p[1..] else p
  }

  /** `hasPath` is whether the source's path counts. */
  function BuildFileSource(root: string, s: Source, hasPath: bool): Result<Execution, Error>
    requires s.Source?
  {
    if !hasPath && s.filePath == "" && !(PREFIX <= s.url) then Err(Invalid)
    else
      var relative := if hasPath then WithoutSlash(s.path)
                      else if s.filePath != "" then Relative(root, s.filePath)
                      else s.url[|PREFIX|..];
      var absolute := if s.filePath != "" then Normalize(s.filePath) else Normalize(root + "/" + relative);
      if !IsWithinRoot(root, absolute) then Err(Traversal)
      else Ok(FileSource(absolute, if s.url != "" then s.url else PREFIX + relative))
  }

  function NormalizeSource(root: string, s: Source): Result<Execution, Error> {
    if s.NotAnObject? then Err(Invalid)
    else match s.kind
      case TypedFile =>
        if s.filePath == "" && s.url == "" then Err(Invalid)
        else if HasProtocol(s.url) && !IsHttp(s.url) then Err(BadProtocol)
        else BuildFileSource(root, s, false)
      case TypedUrl =>
        if s.url == "" then Err(Invalid) else if !IsHttp(s.url) then Err(BadProtocol) else Ok(UrlSource(s.url))
      case Untyped =>
        if s.path == "" && s.filePath == "" && s.url == "" then Err(Invalid)
        else if HasProtocol(s.url) then (if IsHttp(s.url) then Ok(UrlSource(s.url)) else Err(BadProtocol))
        else BuildFileSource(root, s, s.path != "")
  }

  /** A canonical source given back as input. */
  function AsInput(e: Execution): Source {
    match e
    case FileSource(filePath, url) => Source(TypedFile, "", filePath, url)
    case UrlSource(url) => Source(TypedUrl, "", "", url)
  }

  lemma PrefixNoProtocol(rest: string)
    ensures !HasProtocol(PREFIX + rest) && PREFIX <= PREFIX + rest && (PREFIX + rest)[|PREFIX|..] == rest
  {
    assert (PREFIX + rest)[0] == '/';
  }

  /** What BuildFileSource accepts: a normalised path in the root, and the source's own url unless it has none. */
  lemma BuiltIs(root: string, s: Source, hasPath: bool)
    requires s.Source? && BuildFileSource(root, s, hasPath).Ok?
    ensures var e := BuildFileSource(root, s, hasPath).value;
            && e.FileSource? && e.url != "" && (s.url != "" ==> e.url == s.url)
            && (s.url == "" ==> !HasProtocol(e.url))
            && Absolute(e.filePath) && Normalize(e.filePath) == e.filePath
            && IsWithinRoot(root, e.filePath)
  {
    var e := BuildFileSource(root, s, hasPath).value;
    if s.url == "" {
      PrefixNoProtocol(e.url[|PREFIX|..]);
      assert e.url == PREFIX + e.url[|PREFIX|..];
    }
    if s.filePath != "" {
      if Absolute(s.filePath) {
        NormalizeTwice(s.filePath);
      } else {
        RelativeStays(s.filePath);
      }
    } else {
      var relative := if hasPath then WithoutSlash(s.path) else s.url[|PREFIX|..];
      var p := root + "/" + relative;
      if Absolute(p) {
        NormalizeTwice(p);
      } else {
        RelativeStays(p);
      }
    }
  }

  /** Every file result lies under the audio root by segment prefix. */
  lemma FilesUnderRoot(root: string, s: Source)
    requires NormalizeSource(root, s).Ok? && NormalizeSource(root, s).value.FileSource?
    ensures Under(root, NormalizeSource(root, s).value.filePath)
  {
    BuiltIs(root, s, s.kind.Untyped? && s.path != "");
    WithinRootIff(root, NormalizeSource(root, s).value.filePath);
  }

  /** Url results are http or https. */
  lemma UrlsAreHttp(root: string, s: Source)
    requires NormalizeSource(root, s).Ok? && NormalizeSource(root, s).value.UrlSource?
    ensures IsHttp(NormalizeSource(root, s).value.url) && NormalizeSource(root, s).value.url == s.url
  {
    if !s.kind.TypedUrl? && !(s.kind.Untyped? && HasProtocol(s.url)) {
      BuiltIs(root, s, s.kind.Untyped? && s.path != "");
    }
  }

  /** Normalising is idempotent on every input it accepts. */
  lemma NormalizeSourceTwice(root: string, s: Source)
    requires NormalizeSource(root, s).Ok?
    ensures NormalizeSource(root, AsInput(NormalizeSource(root, s).value)) == NormalizeSource(root, s)
  {
    var e := NormalizeSource(root, s).value;
    if e.FileSource? {
      BuiltIs(root, s, s.kind.Untyped? && s.path != "");
    } else {
      UrlsAreHttp(root, s);
    }
  }

  /** A source with only a path and the url made for it are the same source. */
  lemma PathAndUrlAgree(root: string, p: string)
    requires NormalizeSource(root, Source(Untyped, p, "", "")).Ok?
    ensures var e := NormalizeSource(root, Source(Untyped, p, "", ""));
            NormalizeSource(root, Source(Untyped, "", "", e.value.url)) == e
  {
    var relative := WithoutSlash(p);
    PrefixNoProtocol(relative);
  }

  /** What a source with a path and a file path but no url is built to. */
  lemma MixedBuilt(root: string, p: string, filePath: string)
    requires p != "" && filePath != "" && NormalizeSource(root, Source(Untyped, p, filePath, "")).Ok?
    ensures NormalizeSource(root, Source(Untyped, p, filePath, "")).value == FileSource(Normalize(filePath), PREFIX + WithoutSlash(p))
  {
  }

  lemma PathBuilt(root: string, p: string)
    requires p != "" && NormalizeSource(root, Source(Untyped, p, "", "")).Ok?
    ensures NormalizeSource(root, Source(Untyped, p, "", "")).value ==
            FileSource(Normalize(root + "/" + WithoutSlash(p)), PREFIX + WithoutSlash(p))
  {
  }

  /** A url-less source that has a path and a file path gets the url of the one and the file of the other: its
      url names its file exactly when the two agree. */
  lemma MixedNamesIff(root: string, p: string, filePath: string)
    requires p != "" && filePath != ""
    ensures var e := NormalizeSource(root, Source(Untyped, p, filePath, ""));
            e.Ok? && NormalizeSource(root, Source(Untyped, p, "", "")).Ok? ==>
              (NormalizeSource(root, Source(Untyped, "", "", e.value.url)) == e
               <==> Normalize(filePath) == Normalize(root + "/" + WithoutSlash(p)))
  {
    if NormalizeSource(root, Source(Untyped, p, filePath, "")).Ok? && NormalizeSource(root, Source(Untyped, p, "", "")).Ok? {
      MixedBuilt(root, p, filePath);
      PathBuilt(root, p);
      PathAndUrlAgree(root, p);
    }
  }
}
