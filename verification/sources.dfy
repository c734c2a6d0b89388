/**
 * The image sources of source.go and its three implementations: the
 * registry from source type to constructor, the file name the filesystem
 * source opens, and the URLs the S3 and HTTP sources fetch. Fetching itself
 * (files, HTTP, S3 signing) is not part of this model.
 */
module Sources {
  import opened Strings
  import opened Wrappers
  import opened FilePath
  import opened UrlEscape
  import opened Route

  /** SourceConfig: the fields the sources read. */
  datatype SourceConfig = SourceConfig(
    name: string,
    sourceType: string,
    s3AccessKey: string,
    s3Bucket: string,
    s3SecretKey: string,
    directory: string,
    host: string)

  /** The constructors a source type can be registered with. */
  datatype Factory = NewFileSystemSource | NewS3Source | NewHttpSource

  /** A constructed image source and the configuration it keeps. */
  datatype ImageSource =
    | FileSystemImageSource(config: SourceConfig)
    | S3ImageSource(config: SourceConfig)
    | HttpImageSource(config: SourceConfig)

  /** A factory applied to a configuration. */
  function Construct(f: Factory, config: SourceConfig): (s: ImageSource)
    ensures s.config == config
  {
    match f
    case NewFileSystemSource => FileSystemImageSource(config)
    case NewS3Source => S3ImageSource(config)
    case NewHttpSource => HttpImageSource(config)
  }

  /** The registry from source type name to factory. */
  type Registry = map<string, Factory>

  /**
   * RegisterSource: after it, the type names the given factory, overwriting
   * any earlier registration; every other type keeps its entry or its absence.
   */
  function RegisterSource(reg: Registry, sourceType: string, f: Factory): (r: Registry)
    ensures sourceType in r && r[sourceType] == f
    ensures forall t :: t != sourceType ==> (t in r <==> t in reg)
    ensures forall t :: t != sourceType && t in reg ==> r[t] == reg[t]
  {
    reg[sourceType := f]
  }

  /** A second registration of a type replaces the first. */
  lemma ReregisterOverwrites(reg: Registry, sourceType: string, f: Factory, g: Factory)
    ensures RegisterSource(RegisterSource(reg, sourceType, f), sourceType, g) == RegisterSource(reg, sourceType, g)
  {
  }

  /** Registrations of distinct types do not interfere, so their order does not matter. */
  lemma RegisterDistinctCommute(reg: Registry, s: string, f: Factory, t: string, g: Factory)
    requires s != t
    ensures RegisterSource(RegisterSource(reg, s, f), t, g) == RegisterSource(RegisterSource(reg, t, g), s, f)
  {
    UpdatesCommute(reg, s, f, t, g);
  }

  /** Updates of two different keys commute, whatever the key type. */
  lemma UpdatesCommute<K, V>(m: map<K, V>, a: K, x: V, b: K, y: V)
    requires a != b
    ensures m[a := x][b := y] == m[b := y][a := x]
  {
  }

  /**
   * NewImageSourceWithConfig: the registered factory applied to the
   * configuration, or, for an unregistered type, the message printed before
   * the process exits.
   */
  function NewImageSourceWithConfig(reg: Registry, config: SourceConfig): (r: Result<ImageSource, string>)
    ensures r.Success? <==> config.sourceType in reg
    ensures r.Success? ==> r.value == Construct(reg[config.sourceType], config)
    ensures r.Failure? ==> r.error == "Unknown image source type: " + config.sourceType + "\n"
  {
    if config.sourceType in reg then Success(Construct(reg[config.sourceType], config))
    else Failure("Unknown image source type: " + config.sourceType + "\n")
  }

  /** A type just registered constructs with the factory it was registered with. */
  lemma RegisteredSourceConstructs(reg: Registry, f: Factory, config: SourceConfig)
    ensures NewImageSourceWithConfig(RegisterSource(reg, config.sourceType, f), config) == Success(Construct(f, config))
  {
  }

  /** The registry after the three source files' init functions have run. */
  function DefaultRegistry(): Registry
  {
    RegisterSource(RegisterSource(RegisterSource(map[], "filesystem", NewFileSystemSource), "s3", NewS3Source), "http", NewHttpSource)
  }

  /** The built-in types construct their sources; every other type is fatal. */
  lemma DefaultRegistryTypes(config: SourceConfig)
    ensures config.sourceType == "filesystem" ==> NewImageSourceWithConfig(DefaultRegistry(), config) == Success(FileSystemImageSource(config))
    ensures config.sourceType == "s3" ==> NewImageSourceWithConfig(DefaultRegistry(), config) == Success(S3ImageSource(config))
    ensures config.sourceType == "http" ==> NewImageSourceWithConfig(DefaultRegistry(), config) == Success(HttpImageSource(config))
    ensures config.sourceType !in {"filesystem", "s3", "http"} ==> NewImageSourceWithConfig(DefaultRegistry(), config).Failure?
  {
  }

  // ---------------------------------------------------------------------------
  // Filesystem source
  // ---------------------------------------------------------------------------

  /**
   * The file name a request path becomes: every leading `/` removed, every
   * other `/` replaced by `_`.
   */
  function SanitizedName(path: string): (r: string)
    ensures '/' !in r
    ensures |r| <= |path|
    ensures forall i :: 0 <= i < |path| - |r| ==> path[i] == '/'
    ensures |r| > 0 ==> path[|path| - |r|] != '/'
    ensures forall i :: 0 <= i < |r| ==> r[i] == (if path[|path| - |r| + i] == '/' then '_' else path[|path| - |r| + i])
  {
    var r := ReplaceAll(TrimLeft(path, '/'), '/', '_');
    assert forall i :: 0 <= i < |r| ==> r[i] != '/';
    r
  }

  /** Sanitising a sanitised name changes nothing. */
  lemma SanitizedNameIdempotent(path: string)
    ensures SanitizedName(SanitizedName(path)) == SanitizedName(path)
  {
    var r := SanitizedName(path);
    assert TrimLeft(r, '/') == r;
    assert ReplaceAll(r, '/', '_') == r;
  }

  /** An empty path, or one of slashes only, gives the empty name. */
  lemma SanitizedNameOfSlashes(path: string)
    requires forall i :: 0 <= i < |path| ==> path[i] == '/'
    ensures SanitizedName(path) == ""
  {
    TrimLeftAll(path, '/');
  }

  /**
   * fileNameForRequest: the sanitised name joined onto the configured
   * directory. The request path cannot make the file name absolute: it is
   * rooted exactly when the directory is.
   */
  function FileNameForRequest(config: SourceConfig, request: SourceOptions): (r: string)
    ensures Rooted(r) <==> Rooted(config.directory)
  {
    Join2(config.directory, SanitizedName(request.path))
  }

  /**
   * A path that sanitises to a plain name (not empty, `.` or `..`) names a
   * file directly inside the cleaned directory.
   */
  lemma FileNameInsideDirectory(config: SourceConfig, request: SourceOptions)
    requires config.directory != ""
    requires SanitizedName(request.path) !in {"", ".", ".."}
    ensures var name := SanitizedName(request.path);
            var dir := Clean(config.directory);
            FileNameForRequest(config, request) == (if dir == "/" then "/" + name else if dir == "." then name else dir + "/" + name)
  {
    JoinPlainName(config.directory, SanitizedName(request.path));
  }

  /** An empty or all-slash path names the directory itself. */
  lemma FileNameOfBarePath(config: SourceConfig, request: SourceOptions)
    requires config.directory != ""
    requires forall i :: 0 <= i < |request.path| ==> request.path[i] == '/'
    ensures FileNameForRequest(config, request) == Clean(config.directory)
  {
    SanitizedNameOfSlashes(request.path);
    JoinEmptyName(config.directory);
  }

  /** The path `/..` sanitises to `..`. */
  lemma SanitizedDotDot()
    ensures SanitizedName("/..") == ".."
  {
    assert "/.."[1..] == "..";
    assert TrimLeft("/..", '/') == TrimLeft("..", '/') == "..";
    assert ReplaceAll("..", '/', '_') == "..";
  }

  /**
   * The path `/..` climbs out of the configured directory: served from
   * `/a/b`, it names `/a`.
   */
  lemma FileNameEscapesDirectory(config: SourceConfig, a: string, b: string)
    requires a != "" && a != "." && a != ".." && '/' !in a
    requires b != "" && b != "." && b != ".." && '/' !in b
    requires config.directory == "/" + a + "/" + b
    ensures FileNameForRequest(config, SourceOptions("/..")) == "/" + a
  {
    SanitizedDotDot();
    JoinDotDotClimbs(a, b);
  }

  // ---------------------------------------------------------------------------
  // URL paths of the S3 and HTTP sources
  // ---------------------------------------------------------------------------

  /** Each part escaped for a query component. */
  function EscapeEach(parts: seq<string>): (r: seq<string>)
    ensures |r| == |parts|
    ensures forall i :: 0 <= i < |r| ==> r[i] == QueryEscape(parts[i])
  {
    seq(|parts|, i requires 0 <= i < |parts| => QueryEscape(parts[i]))
  }

  /** The text split at `/`, every segment query-escaped, and rejoined with `/`. */
  function EscapeSegments(path: string): (r: string)
    ensures Split(r, '/') == EscapeEach(Split(path, '/'))
  {
    var parts := EscapeEach(Split(path, '/'));
    SplitJoin(parts, '/');
    Join(parts, '/')
  }

  /**
   * One escaped segment per `/`-separated segment, in order, and unescaping
   * each recovers the UTF-8 bytes of the original segment.
   */
  lemma EscapeSegmentsRoundTrip(path: string)
    ensures |Split(EscapeSegments(path), '/')| == Count(path, '/') + 1
    ensures forall i :: 0 <= i < |Split(path, '/')| ==>
              QueryUnescape(Split(EscapeSegments(path), '/')[i]) == Some(Utf8(Split(path, '/')[i]))
  {
    forall i | 0 <= i < |Split(path, '/')|
      ensures QueryUnescape(Split(EscapeSegments(path), '/')[i]) == Some(Utf8(Split(path, '/')[i]))
    {
      QueryRoundTrip(Split(path, '/')[i]);
    }
  }

  /** Empty segments (from a leading, trailing or doubled `/`) stay empty. */
  lemma EscapeSegmentsKeepsEmpty(path: string, i: nat)
    requires i < |Split(path, '/')| && Split(path, '/')[i] == ""
    ensures Split(EscapeSegments(path), '/')[i] == ""
  {
    assert Utf8("") == [];
    assert EscapeBytes([]) == [];
  }

  /** Escaping segment by segment distributes over a `/`. */
  lemma EscapeSegmentsConcat(a: string, b: string)
    ensures EscapeSegments(a + "/" + b) == EscapeSegments(a) + "/" + EscapeSegments(b)
  {
    assert a + "/" + b == a + ['/'] + b;
    SplitConcat(a, b, '/');
    var x := EscapeEach(Split(a, '/'));
    var y := EscapeEach(Split(b, '/'));
    EscapeEachConcat(Split(a, '/'), Split(b, '/'));
    assert EscapeSegments(a + "/" + b) == Join(x + y, '/');
    JoinConcat(x, y, '/');
  }

  lemma EscapeEachConcat(p: seq<string>, q: seq<string>)
    ensures EscapeEach(p + q) == EscapeEach(p) + EscapeEach(q)
  {
  }

  /** Characters QueryEscape leaves alone: ASCII letters, digits and `-_.~`. */
  predicate PlainChar(c: char)
  {
    c as int < 0x80 && Unreserved(c as int)
  }

  /** A path of plain characters and `/` escapes to itself. */
  lemma EscapeSegmentsPlain(path: string)
    requires forall i :: 0 <= i < |path| ==> path[i] == '/' || PlainChar(path[i])
    ensures EscapeSegments(path) == path
  {
    var parts := Split(path, '/');
    forall i | 0 <= i < |parts|
      ensures QueryEscape(parts[i]) == parts[i]
    {
      forall j | 0 <= j < |parts[i]|
        ensures PlainChar(parts[i][j])
      {
        JoinContains(parts, '/', i, j);
      }
      QueryEscapePlain(parts[i]);
      assert ReplaceAll(parts[i], ' ', '+') == parts[i];
    }
    assert EscapeEach(parts) == parts;
  }

  /** The parts of a url.URL the sources set. */
  datatype Url = Url(scheme: string, host: string, path: string, opaquePart: string)

  /** imageURLForRequest of the S3 source: the escaped path on the bucket's virtual host. */
  function ImageUrlForRequest(config: SourceConfig, request: SourceOptions): (u: Url)
    ensures u.scheme == "http" && u.host == config.s3Bucket + ".s3.amazonaws.com" && u.opaquePart == ""
    ensures Split(u.path, '/') == EscapeEach(Split(request.path, '/'))
  {
    Url("http", config.s3Bucket + ".s3.amazonaws.com", EscapeSegments(request.path), "")
  }

  /**
   * getHttpRequest of the HTTP source: the directory and the request path
   * concatenated as they are, escaped segment by segment into the opaque
   * part, on the configured host.
   */
  function GetHttpRequest(config: SourceConfig, request: SourceOptions): (u: Url)
    ensures u.scheme == "http" && u.host == config.host && u.path == ""
    ensures Split(u.opaquePart, '/') == EscapeEach(Split(config.directory + request.path, '/'))
  {
    Url("http", config.host, "", EscapeSegments(config.directory + request.path))
  }

  /** A request path starting with `/` is escaped exactly as the directory's own segments are. */
  lemma HttpDirectoryEscapedLikePath(config: SourceConfig, request: SourceOptions)
    requires |request.path| > 0 && request.path[0] == '/'
    ensures GetHttpRequest(config, request).opaquePart
            == EscapeSegments(config.directory) + "/" + EscapeSegments(request.path[1..])
  {
    assert config.directory + request.path == config.directory + "/" + request.path[1..];
    EscapeSegmentsConcat(config.directory, request.path[1..]);
  }

  /** No separator is inserted between the directory and the path. */
  lemma HttpPathIsRawConcatenation()
    ensures GetHttpRequest(SourceConfig("", "http", "", "", "", "images", "example.com"), SourceOptions("a.jpg")).opaquePart == "imagesa.jpg"
  {
    assert "images" + "a.jpg" == "imagesa.jpg";
    EscapeSegmentsPlain("imagesa.jpg");
  }
}
