/**
 * The section parsers of config.go: server and statsd settings, one source
 * and one processor by name, one route by pattern, and their assembly into
 * the whole configuration. The regexp compiler, the `ScaleModes` table and
 * the scale-mode constants are parameters.
 */
module Config {
  import opened Wrappers
  import opened Strings
  import opened Seqs
  import opened Fmt
  import opened Keypath
  import opened Strconv
  import opened Geometry
  import Sources
  import Route

  /** What config.go takes from code that is not part of this model. */
  datatype Externals = Externals(
    scaleModes: map<string, nat>,
    scaleFill: nat,
    scaleAspectFit: nat,
    outOfRange: real -> Uint64,
    compile: string -> Result<seq<string>, string>)

  datatype ServerConfig = ServerConfig(port: nat, readTimeout: nat, writeTimeout: nat)

  datatype StatterConfig = StatterConfig(host: string, port: nat, enabled: bool)

  datatype FormatConfig = FormatConfig(width: nat, height: nat, blur: real)

  /** ProcessorConfig as config.go declares it. */
  datatype ProcessorConfig = ProcessorConfig(
    name: string,
    imageCompressionQuality: nat,
    defaultScaleMode: nat,
    defaultImageHeight: nat,
    defaultImageWidth: nat,
    maxImageDimensions: Dimensions,
    maxBlurRadiusPercentage: real,
    autoOrient: bool,
    formats: map<string, FormatConfig>,
    maintainAspectRatio: bool)

  /** RouteConfig; the compiled pattern is represented by its source text. */
  datatype RouteConfig = RouteConfig(
    name: string,
    cacheControl: string,
    pattern: string,
    imagePathIndex: nat,
    sourceConfig: Option<Sources.SourceConfig>,
    processorConfig: Option<ProcessorConfig>)

  datatype Configuration = Configuration(
    serverConfig: ServerConfig,
    statterConfig: StatterConfig,
    routeConfigs: seq<RouteConfig>)

  // ---------------------------------------------------------------------------
  // The loops over the entries of a section
  // ---------------------------------------------------------------------------

  /**
   * What a loop over the keys of a map yields when it parses every key and
   * can only stop with a panic: every key parsed, or a panic if any key's
   * parse panics, whatever order the keys come in.
   */
  function Collect<V>(keys: set<string>, parse: string -> Result<V, Fatal>): (r: Result<map<string, V>, Fatal>)
    ensures r.Success? <==> forall k :: k in keys ==> parse(k).Success?
    ensures r.Success? ==> r.value.Keys == keys && forall k :: k in keys ==> parse(k) == Success(r.value[k])
    ensures r.Failure? ==> r.error == Panic
  {
    if exists k :: k in keys && parse(k).Failure? then Failure(Panic)
    else Success(map k | k in keys :: parse(k).value)
  }

  /** A loop that parsed every key without a panic has collected exactly the parses. */
  lemma CollectAll<V>(keys: set<string>, parse: string -> Result<V, Fatal>, parsed: map<string, V>)
    requires parsed.Keys == keys
    requires forall k :: k in parsed ==> parse(k) == Success(parsed[k])
    ensures Collect(keys, parse) == Success(parsed)
  {
    assert parsed == map k | k in keys :: parse(k).value;
  }

  // ---------------------------------------------------------------------------
  // One setting, read through its keypath format
  // ---------------------------------------------------------------------------

  /** uintForKeypath("<section>.<field>"): the number the document holds there, converted to uint64. */
  method ReadSectionUint(data: map<string, Json>, section: string, field: string, outOfRange: real -> Uint64) returns (r: Result<nat, Fatal>)
    requires PlainKey(section) && PlainKey(field)
    ensures r == AsUint(SectionValue(data, FloatKind, section, field), outOfRange)
  {
    r := UintForKeypath(data, SectionFormat(section, field), [], outOfRange);
    SectionLookup(data, FloatKind, section, field);
  }

  /** stringForKeypath("<section>.%s.<field>", name). */
  method ReadEntryString(data: map<string, Json>, section: string, name: string, field: string) returns (r: Result<string, Fatal>)
    requires PlainKey(section) && PlainKey(field)
    ensures r == AsString(EntryValue(data, StringKind, section, name, field))
  {
    r := StringForKeypath(data, EntryFormat(section, field), [name]);
    EntryLookup(data, StringKind, section, name, field);
  }

  /** uintForKeypath("<section>.%s.<field>", name). */
  method ReadEntryUint(data: map<string, Json>, section: string, name: string, field: string, outOfRange: real -> Uint64) returns (r: Result<nat, Fatal>)
    requires PlainKey(section) && PlainKey(field)
    ensures r == AsUint(EntryValue(data, FloatKind, section, name, field), outOfRange)
  {
    r := UintForKeypath(data, EntryFormat(section, field), [name], outOfRange);
    EntryLookup(data, FloatKind, section, name, field);
  }

  /** floatForKeypath("<section>.%s.<field>", name). */
  method ReadEntryFloat(data: map<string, Json>, section: string, name: string, field: string) returns (r: Result<real, Fatal>)
    requires PlainKey(section) && PlainKey(field)
    ensures r == AsFloat(EntryValue(data, FloatKind, section, name, field))
  {
    r := FloatForKeypath(data, EntryFormat(section, field), [name]);
    EntryLookup(data, FloatKind, section, name, field);
  }

  /** boolForKeypath("<section>.%s.<field>", name). */
  method ReadEntryBool(data: map<string, Json>, section: string, name: string, field: string) returns (r: Result<bool, Fatal>)
    requires PlainKey(section) && PlainKey(field)
    ensures r == AsBool(EntryValue(data, BoolKind, section, name, field))
  {
    r := BoolForKeypath(data, EntryFormat(section, field), [name]);
    EntryLookup(data, BoolKind, section, name, field);
  }

  /** uintForKeypath("<section>.%s.<sub>.%s.<field>", name, entry). */
  method ReadSubEntryUint(data: map<string, Json>, section: string, name: string, sub: string, entry: string, field: string,
                          outOfRange: real -> Uint64) returns (r: Result<nat, Fatal>)
    requires PlainKey(section) && PlainKey(sub) && PlainKey(field)
    ensures r == AsUint(SubEntryValue(data, FloatKind, section, name, sub, entry, field), outOfRange)
  {
    r := UintForKeypath(data, SubEntryFormat(section, sub, field), [name, entry], outOfRange);
    SubEntryLookup(data, FloatKind, section, name, sub, entry, field);
  }

  /** floatForKeypath("<section>.%s.<sub>.%s.<field>", name, entry). */
  method ReadSubEntryFloat(data: map<string, Json>, section: string, name: string, sub: string, entry: string, field: string)
    returns (r: Result<real, Fatal>)
    requires PlainKey(section) && PlainKey(sub) && PlainKey(field)
    ensures r == AsFloat(SubEntryValue(data, FloatKind, section, name, sub, entry, field))
  {
    r := FloatForKeypath(data, SubEntryFormat(section, sub, field), [name, entry]);
    SubEntryLookup(data, FloatKind, section, name, sub, entry, field);
  }

  /*
   * The section and field names config.go spells out in its keypath formats
   * are plain components; each group is proved once, by evaluation.
   */

  lemma ServerKeys()
    ensures PlainKey("server") && PlainKey("port") && PlainKey("read_timeout") && PlainKey("write_timeout")
  {
  }

  lemma SourceKeys()
    ensures PlainKey("sources") && PlainKey("type") && PlainKey("s3_access_key")
  {
  }

  lemma SourceLocationKeys()
    ensures PlainKey("s3_secret_key") && PlainKey("s3_bucket") && PlainKey("directory") && PlainKey("host")
  {
  }

  lemma ProcessorKeys()
    ensures PlainKey("processors") && PlainKey("default_scale_mode") && PlainKey("max_image_width") && PlainKey("max_image_height")
  {
  }

  lemma OutputKeys()
    ensures PlainKey("image_compression_quality") && PlainKey("default_image_height") && PlainKey("default_image_width")
  {
  }

  lemma BlurKeys()
    ensures PlainKey("max_blur_radius_percentage")
  {
  }

  lemma SwitchKeys()
    ensures PlainKey("auto_orient") && PlainKey("maintain_aspect_ratio")
  {
  }

  lemma FormatKeys()
    ensures PlainKey("formats") && PlainKey("width") && PlainKey("height") && PlainKey("blur")
  {
  }

  // ---------------------------------------------------------------------------
  // parseServerConfig
  // ---------------------------------------------------------------------------

  /** A number or nil, as floatForKeypath reads a found value: nil is 0, anything else panics. */
  function NumberOrZero(v: Json): (r: Result<real, Fatal>)
    ensures r.Success? <==> v.JNull? || v.JNumber?
    ensures v.JNumber? ==> r == Success(v.n)
    ensures v.JNull? ==> r == Success(0.0)
  {
    match v
    case JNull => Success(0.0)
    case JNumber(n) => Success(n)
    case _ => Failure(Panic)
  }

  /** A field of a top-level object read as a uint64: the object must exist and the field be a number or nil. */
  lemma SectionNumber(data: map<string, Json>, section: string, field: string, outOfRange: real -> Uint64)
    ensures var r := AsUint(SectionValue(data, FloatKind, section, field), outOfRange);
            if section in data && data[section].JObject? then
              var x := NumberOrZero(Field(data[section].fields, field));
              r == (if x.Success? then Success(Uint64OfFloat(x.value, outOfRange)) else Failure(Panic))
            else r == Failure(Panic)
  {
    DescendOne(data, section);
  }

  /**
   * The `server` settings the document holds: without a `server` object
   * nothing can be read; with one, each setting is its number converted to
   * uint64, 0 when it is missing or null, and any other value panics.
   */
  function ServerSettings(data: map<string, Json>, outOfRange: real -> Uint64): Result<ServerConfig, Fatal>
  {
    if "server" in data && data["server"].JObject? then
      var s := data["server"].fields;
      var port, read, write := NumberOrZero(Field(s, "port")), NumberOrZero(Field(s, "read_timeout")), NumberOrZero(Field(s, "write_timeout"));
      if port.Success? && read.Success? && write.Success? then
        Success(ServerConfig(Uint64OfFloat(port.value, outOfRange), Uint64OfFloat(read.value, outOfRange), Uint64OfFloat(write.value, outOfRange)))
      else Failure(Panic)
    else Failure(Panic)
  }

  /** parseServerConfig: `server.port`, `server.read_timeout` and `server.write_timeout`. */
  method ParseServerConfig(data: map<string, Json>, outOfRange: real -> Uint64) returns (r: Result<ServerConfig, Fatal>)
    ensures r == ServerSettings(data, outOfRange)
  {
    ServerKeys();
    SectionNumber(data, "server", "port", outOfRange);
    SectionNumber(data, "server", "read_timeout", outOfRange);
    SectionNumber(data, "server", "write_timeout", outOfRange);
    var port := ReadSectionUint(data, "server", "port", outOfRange);
    if port.Failure? {
      return Failure(port.error);
    }
    var readTimeout := ReadSectionUint(data, "server", "read_timeout", outOfRange);
    if readTimeout.Failure? {
      return Failure(readTimeout.error);
    }
    var writeTimeout := ReadSectionUint(data, "server", "write_timeout", outOfRange);
    if writeTimeout.Failure? {
      return Failure(writeTimeout.error);
    }
    r := Success(ServerConfig(port.value, readTimeout.value, writeTimeout.value));
  }

  // ---------------------------------------------------------------------------
  // parseStatterConfig
  // ---------------------------------------------------------------------------

  /** `data["statsd"]` with the comma-ok assertion: the object, or an empty (nil) map. */
  function StatsdSection(data: map<string, Json>): (s: map<string, Json>)
    ensures "statsd" in data && data["statsd"].JObject? ==> s == data["statsd"].fields
    ensures !("statsd" in data && data["statsd"].JObject?) ==> s == map[]
  {
    if "statsd" in data && data["statsd"].JObject? then data["statsd"].fields else map[]
  }

  /**
   * parseStatterConfig, which never fails: every assertion is comma-ok, so a
   * value of the wrong type reads as the zero value of the expected type.
   */
  function ParseStatterConfig(data: map<string, Json>, outOfRange: real -> Uint64): (r: StatterConfig)
    ensures var s := StatsdSection(data);
            var h := Field(s, "host");
            (h.JString? && h.s != "" ==> r.host == h.s) && (!(h.JString? && h.s != "") ==> r.host == "0")
    ensures var p := Field(StatsdSection(data), "port");
            (p.JNumber? && p.n != 0.0 ==> r.port == Uint64OfFloat(p.n, outOfRange))
            && (!(p.JNumber? && p.n != 0.0) ==> r.port == 8125)
    ensures var s := StatsdSection(data);
            r.enabled <==> ("enabled" !in s || s["enabled"] == JBool(true))
  {
    var statsd := StatsdSection(data);
    var host := if Field(statsd, "host").JString? then Field(statsd, "host").s else "";
    var host := if host == "" then "0" else host;
    var port := if Field(statsd, "port").JNumber? then Field(statsd, "port").n else 0.0;
    var port := if port == 0.0 then 8125.0 else port;
    var enabled := if "enabled" in statsd then (if statsd["enabled"].JBool? then statsd["enabled"].b else false) else true;
    Uint64OfWhole(8125, outOfRange);
    StatterConfig(host, Uint64OfFloat(port, outOfRange), enabled)
  }

  /** Without a `statsd` object every setting takes its default. */
  lemma StatterDefaults(data: map<string, Json>, outOfRange: real -> Uint64)
    requires !("statsd" in data && data["statsd"].JObject?)
    ensures ParseStatterConfig(data, outOfRange) == StatterConfig("0", 8125, true)
  {
  }

  /** An `enabled` key that is present but not a bool, null included, disables statsd. */
  lemma StatterEnabledNotBool(data: map<string, Json>, outOfRange: real -> Uint64)
    requires "statsd" in data && data["statsd"].JObject?
    requires "enabled" in data["statsd"].fields && !data["statsd"].fields["enabled"].JBool?
    ensures !ParseStatterConfig(data, outOfRange).enabled
  {
  }


  // ---------------------------------------------------------------------------
  // parseSourceConfig
  // ---------------------------------------------------------------------------

  /** One string setting of a source, `sources.<name>.<field>`, with its `default` fallback. */
  function SourceSetting(data: map<string, Json>, name: string, field: string): Result<string, Fatal>
  {
    AsString(EntryValue(data, StringKind, "sources", name, field))
  }

  /** The source the document describes under a name: every setting must read as a string. */
  function SourceSettings(data: map<string, Json>, name: string): (r: Result<Sources.SourceConfig, Fatal>)
    ensures r.Failure? ==> r.error == Panic
    ensures r.Success? <==> SourceSetting(data, name, "type").Success? && SourceSetting(data, name, "s3_access_key").Success?
                            && SourceSetting(data, name, "s3_secret_key").Success? && SourceSetting(data, name, "s3_bucket").Success?
                            && SourceSetting(data, name, "directory").Success? && SourceSetting(data, name, "host").Success?
    ensures r.Success? ==> r.value.name == name && Success(r.value.sourceType) == SourceSetting(data, name, "type")
                           && Success(r.value.s3AccessKey) == SourceSetting(data, name, "s3_access_key")
                           && Success(r.value.s3SecretKey) == SourceSetting(data, name, "s3_secret_key")
                           && Success(r.value.s3Bucket) == SourceSetting(data, name, "s3_bucket")
                           && Success(r.value.directory) == SourceSetting(data, name, "directory")
                           && Success(r.value.host) == SourceSetting(data, name, "host")
  {
    var sourceType, accessKey := SourceSetting(data, name, "type"), SourceSetting(data, name, "s3_access_key");
    var secretKey, bucket := SourceSetting(data, name, "s3_secret_key"), SourceSetting(data, name, "s3_bucket");
    var directory, host := SourceSetting(data, name, "directory"), SourceSetting(data, name, "host");
    if sourceType.Success? && accessKey.Success? && secretKey.Success? && bucket.Success? && directory.Success? && host.Success? then
      Success(Sources.SourceConfig(name, sourceType.value, accessKey.value, bucket.value, secretKey.value, directory.value, host.value))
    else Failure(Panic)
  }

  /** parseSourceConfig: the six settings read in the order of the source, each through `sources.%s.<field>`. */
  method ParseSourceConfig(data: map<string, Json>, name: string) returns (r: Result<Sources.SourceConfig, Fatal>)
    ensures r == SourceSettings(data, name)
  {
    SourceKeys();
    SourceLocationKeys();
    var sourceType := ReadEntryString(data, "sources", name, "type");
    if sourceType.Failure? {
      return Failure(sourceType.error);
    }
    var accessKey := ReadEntryString(data, "sources", name, "s3_access_key");
    if accessKey.Failure? {
      return Failure(accessKey.error);
    }
    var secretKey := ReadEntryString(data, "sources", name, "s3_secret_key");
    if secretKey.Failure? {
      return Failure(secretKey.error);
    }
    var bucket := ReadEntryString(data, "sources", name, "s3_bucket");
    if bucket.Failure? {
      return Failure(bucket.error);
    }
    var directory := ReadEntryString(data, "sources", name, "directory");
    if directory.Failure? {
      return Failure(directory.error);
    }
    var host := ReadEntryString(data, "sources", name, "host");
    if host.Failure? {
      return Failure(host.error);
    }
    r := Success(Sources.SourceConfig(name, sourceType.value, accessKey.value, bucket.value, secretKey.value, directory.value, host.value));
  }

  /** Two steps into nested objects. */
  lemma DescendTwo(data: map<string, Json>, a: string, b: string)
    ensures Descend(data, [a, b]) ==
            (if a in data && data[a].JObject? && b in data[a].fields && data[a].fields[b].JObject?
             then Success(data[a].fields[b].fields) else Failure(Panic))
  {
    DescendConcat(data, [a], [b]);
    assert [a] + [b] == [a, b];
    DescendOne(data, a);
    if a in data && data[a].JObject? {
      DescendOne(data[a].fields, b);
    }
  }

  /**
   * How one setting of a source without a dot in its name is found: the
   * source's own string; when it has none (or null), that of
   * `sources.default`, or "" when that has none either; a panic when
   * `sources.default` is not an object or a value is not a string.
   */
  lemma SourceFieldResolution(data: map<string, Json>, name: string, field: string)
    requires '.' !in name
    requires "sources" in data && data["sources"].JObject?
    requires name in data["sources"].fields && data["sources"].fields[name].JObject?
    ensures var own := Field(data["sources"].fields[name].fields, field);
            own.JString? ==> SourceSetting(data, name, field) == Success(own.s)
    ensures var own := Field(data["sources"].fields[name].fields, field);
            (own.JNull? && !("default" in data["sources"].fields && data["sources"].fields["default"].JObject?))
            ==> SourceSetting(data, name, field) == Failure(Panic)
    ensures var own := Field(data["sources"].fields[name].fields, field);
            own.JNull? && "default" in data["sources"].fields && data["sources"].fields["default"].JObject? ==>
              var fallback := Field(data["sources"].fields["default"].fields, field);
              (fallback.JString? ==> SourceSetting(data, name, field) == Success(fallback.s))
              && (fallback.JNull? ==> SourceSetting(data, name, field) == Success(""))
  {
    SplitWithoutSeparator(name, '.');
    assert ["sources"] + [name] == ["sources", name];
    DescendTwo(data, "sources", name);
    DescendTwo(data, "sources", "default");
  }

  /** A source whose name holds dots is looked up along the pieces of the name, not under the name itself. */
  lemma DottedSourceName(data: map<string, Json>, field: string)
    ensures var own := At(data, ["sources", "s3", "eu"], field);
            SourceSetting(data, "s3.eu", field)
            == AsString(WithDefault(own, At(data, ["sources", "default"], field), StringKind))
  {
    var pieces := ["s3", "eu"];
    assert '.' !in pieces[0] && '.' !in pieces[1];
    SplitJoin(pieces, '.');
    assert Join(pieces, '.') == "s3" + "." + "eu";
    assert "s3" + "." + "eu" == "s3.eu";
    assert ["sources"] + pieces == ["sources", "s3", "eu"];
  }

  // ---------------------------------------------------------------------------
  // parseProcessorConfig
  // ---------------------------------------------------------------------------

  /**
   * The default scale mode: the named mode, ScaleFill when the name is
   * unknown or maps to 0, and ScaleAspectFit whenever the deprecated
   * `maintain_aspect_ratio` flag is set.
   */
  function ResolvedScaleMode(ext: Externals, modeName: string, maintainAspectRatio: bool): (mode: nat)
    ensures maintainAspectRatio ==> mode == ext.scaleAspectFit
    ensures !maintainAspectRatio && modeName !in ext.scaleModes ==> mode == ext.scaleFill
    ensures !maintainAspectRatio && modeName in ext.scaleModes ==>
              mode == (if ext.scaleModes[modeName] == 0 then ext.scaleFill else ext.scaleModes[modeName])
  {
    var named := Route.ScaleModeNamed(ext.scaleModes, modeName);
    var scaleMode := if named == 0 then ext.scaleFill else named;
    if maintainAspectRatio then ext.scaleAspectFit else scaleMode
  }

  /** One setting of a processor, `processors.<name>.<field>`, with its `default` fallback. */
  function ProcessorValue(data: map<string, Json>, kind: Kind, name: string, field: string): Result<Json, Fatal>
  {
    EntryValue(data, kind, "processors", name, field)
  }

  /** One setting of a format of a processor, `processors.<name>.formats.<format>.<field>`. */
  function FormatValue(data: map<string, Json>, name: string, formatName: string, field: string): Result<Json, Fatal>
  {
    SubEntryValue(data, FloatKind, "processors", name, "formats", formatName, field)
  }

  /** The format the document describes: width and height as uint64, blur as a number. */
  function FormatSettings(data: map<string, Json>, name: string, formatName: string, outOfRange: real -> Uint64): (r: Result<FormatConfig, Fatal>)
    ensures r.Failure? ==> r.error == Panic
    ensures r.Success? <==> AsFloat(FormatValue(data, name, formatName, "width")).Success?
                            && AsFloat(FormatValue(data, name, formatName, "height")).Success?
                            && AsFloat(FormatValue(data, name, formatName, "blur")).Success?
    ensures r.Success? ==> Success(r.value.width) == AsUint(FormatValue(data, name, formatName, "width"), outOfRange)
                           && Success(r.value.height) == AsUint(FormatValue(data, name, formatName, "height"), outOfRange)
                           && Success(r.value.blur) == AsFloat(FormatValue(data, name, formatName, "blur"))
  {
    var width := AsUint(FormatValue(data, name, formatName, "width"), outOfRange);
    var height := AsUint(FormatValue(data, name, formatName, "height"), outOfRange);
    var blur := AsFloat(FormatValue(data, name, formatName, "blur"));
    if width.Success? && height.Success? && blur.Success? then Success(FormatConfig(width.value, height.value, blur.value))
    else Failure(Panic)
  }

  /** One entry of a processor's `formats`: width, height and blur, read with both names. */
  method ParseFormat(data: map<string, Json>, name: string, formatName: string, outOfRange: real -> Uint64) returns (r: Result<FormatConfig, Fatal>)
    ensures r == FormatSettings(data, name, formatName, outOfRange)
  {
    ProcessorKeys();
    FormatKeys();
    var width := ReadSubEntryUint(data, "processors", name, "formats", formatName, "width", outOfRange);
    if width.Failure? {
      return Failure(width.error);
    }
    var height := ReadSubEntryUint(data, "processors", name, "formats", formatName, "height", outOfRange);
    if height.Failure? {
      return Failure(height.error);
    }
    var blur := ReadSubEntryFloat(data, "processors", name, "formats", formatName, "blur");
    if blur.Failure? {
      return Failure(blur.error);
    }
    r := Success(FormatConfig(width.value, height.value, blur.value));
  }

  /**
   * A format without a width of its own does not take the width the same
   * format has under `processors.default`: the retry descends through the
   * key `%!!(MISSING)s(MISSING)` of `processors.default.formats`, and when
   * no object is there the type assertion panics.
   */
  lemma MissingFormatWidthPanics(data: map<string, Json>, name: string, formatName: string, outOfRange: real -> Uint64)
    requires '.' !in name && '.' !in formatName
    requires At(data, ["processors", name, "formats", formatName], "width") == Success(JNull)
    requires var formats := Descend(data, ["processors", "default", "formats"]);
             formats.Success? ==> GarbledName !in formats.value || !formats.value[GarbledName].JObject?
    ensures AsUint(FormatValue(data, name, formatName, "width"), outOfRange) == Failure(Panic)
  {
    SplitWithoutSeparator(name, '.');
    SplitWithoutSeparator(formatName, '.');
    assert ["processors"] + [name] + ["formats"] + [formatName] == ["processors", name, "formats", formatName];
    var formats := ["processors", "default", "formats"];
    DescendConcat(data, formats, [GarbledName]);
    assert formats + [GarbledName] == ["processors", "default", "formats", GarbledName];
    if Descend(data, formats).Success? {
      DescendOne(Descend(data, formats).value, GarbledName);
    }
  }

  /**
   * The `formats` of a processor: none when the key is absent; a panic when
   * it is present but not an object, or when any format's settings panic;
   * otherwise every format.
   */
  function FormatsSettings(data: map<string, Json>, name: string, processor: map<string, Json>, outOfRange: real -> Uint64): (r: Result<map<string, FormatConfig>, Fatal>)
    ensures "formats" !in processor ==> r == Success(map[])
    ensures "formats" in processor && !processor["formats"].JObject? ==> r == Failure(Panic)
    ensures "formats" in processor && processor["formats"].JObject? ==>
              r == Collect(processor["formats"].fields.Keys, k => FormatSettings(data, name, k, outOfRange))
  {
    if "formats" !in processor then Success(map[])
    else if !processor["formats"].JObject? then Failure(Panic)
    else Collect(processor["formats"].fields.Keys, k => FormatSettings(data, name, k, outOfRange))
  }

  /** The loop over a processor's `formats`, in whatever order the map yields them. */
  method ParseFormats(data: map<string, Json>, name: string, processor: map<string, Json>, outOfRange: real -> Uint64)
    returns (r: Result<map<string, FormatConfig>, Fatal>)
    ensures r == FormatsSettings(data, name, processor, outOfRange)
  {
    if "formats" !in processor {
      return Success(map[]);
    }
    if !processor["formats"].JObject? {
      return Failure(Panic);
    }
    var formats := processor["formats"].fields;
    var parse := k => FormatSettings(data, name, k, outOfRange);
    var remaining := formats.Keys;
    var parsed: map<string, FormatConfig> := map[];
    while remaining != {}
      invariant remaining <= formats.Keys
      invariant parsed.Keys == formats.Keys - remaining
      invariant forall k :: k in parsed ==> parse(k) == Success(parsed[k])
      decreases remaining
    {
      var formatName :| formatName in remaining;
      var format := ParseFormat(data, name, formatName, outOfRange);
      if format.Failure? {
        return Failure(format.error);
      }
      parsed := parsed[formatName := format.value];
      remaining := remaining - {formatName};
    }
    CollectAll(formats.Keys, parse, parsed);
    r := Success(parsed);
  }

  /** The largest image a processor may produce: `max_image_width` and `max_image_height`. */
  function MaxDimensions(data: map<string, Json>, name: string, outOfRange: real -> Uint64): (r: Result<Dimensions, Fatal>)
    ensures r.Failure? ==> r.error == Panic
    ensures r.Success? <==> AsFloat(ProcessorValue(data, FloatKind, name, "max_image_width")).Success?
                            && AsFloat(ProcessorValue(data, FloatKind, name, "max_image_height")).Success?
    ensures r.Success? ==> Success(r.value.width) == AsUint(ProcessorValue(data, FloatKind, name, "max_image_width"), outOfRange)
                           && Success(r.value.height) == AsUint(ProcessorValue(data, FloatKind, name, "max_image_height"), outOfRange)
  {
    var width := AsUint(ProcessorValue(data, FloatKind, name, "max_image_width"), outOfRange);
    var height := AsUint(ProcessorValue(data, FloatKind, name, "max_image_height"), outOfRange);
    if width.Success? && height.Success? then Success(Dimensions(width.value, height.value)) else Failure(Panic)
  }

  method ReadMaxDimensions(data: map<string, Json>, name: string, outOfRange: real -> Uint64) returns (r: Result<Dimensions, Fatal>)
    ensures r == MaxDimensions(data, name, outOfRange)
  {
    ProcessorKeys();
    var width := ReadEntryUint(data, "processors", name, "max_image_width", outOfRange);
    if width.Failure? {
      return Failure(width.error);
    }
    var height := ReadEntryUint(data, "processors", name, "max_image_height", outOfRange);
    if height.Failure? {
      return Failure(height.error);
    }
    r := Success(Dimensions(width.value, height.value));
  }

  /** What a processor produces when a request says nothing: compression quality, height and width. */
  datatype OutputDefaults = OutputDefaults(quality: nat, height: nat, width: nat)

  function OutputSettings(data: map<string, Json>, name: string, outOfRange: real -> Uint64): (r: Result<OutputDefaults, Fatal>)
    ensures r.Failure? ==> r.error == Panic
    ensures r.Success? <==> AsFloat(ProcessorValue(data, FloatKind, name, "image_compression_quality")).Success?
                            && AsFloat(ProcessorValue(data, FloatKind, name, "default_image_height")).Success?
                            && AsFloat(ProcessorValue(data, FloatKind, name, "default_image_width")).Success?
    ensures r.Success? ==>
              Success(r.value.quality) == AsUint(ProcessorValue(data, FloatKind, name, "image_compression_quality"), outOfRange)
              && Success(r.value.height) == AsUint(ProcessorValue(data, FloatKind, name, "default_image_height"), outOfRange)
              && Success(r.value.width) == AsUint(ProcessorValue(data, FloatKind, name, "default_image_width"), outOfRange)
  {
    var quality := AsUint(ProcessorValue(data, FloatKind, name, "image_compression_quality"), outOfRange);
    var height := AsUint(ProcessorValue(data, FloatKind, name, "default_image_height"), outOfRange);
    var width := AsUint(ProcessorValue(data, FloatKind, name, "default_image_width"), outOfRange);
    if quality.Success? && height.Success? && width.Success? then Success(OutputDefaults(quality.value, height.value, width.value))
    else Failure(Panic)
  }

  method ReadOutputSettings(data: map<string, Json>, name: string, outOfRange: real -> Uint64) returns (r: Result<OutputDefaults, Fatal>)
    ensures r == OutputSettings(data, name, outOfRange)
  {
    ProcessorKeys();
    OutputKeys();
    var quality := ReadEntryUint(data, "processors", name, "image_compression_quality", outOfRange);
    if quality.Failure? {
      return Failure(quality.error);
    }
    var height := ReadEntryUint(data, "processors", name, "default_image_height", outOfRange);
    if height.Failure? {
      return Failure(height.error);
    }
    var width := ReadEntryUint(data, "processors", name, "default_image_width", outOfRange);
    if width.Failure? {
      return Failure(width.error);
    }
    r := Success(OutputDefaults(quality.value, height.value, width.value));
  }

  /** The remaining switches of a processor: the blur limit, auto-orientation and the deprecated aspect-ratio flag. */
  datatype Switches = Switches(maxBlur: real, autoOrient: bool, maintainAspectRatio: bool)

  function SwitchSettings(data: map<string, Json>, name: string): (r: Result<Switches, Fatal>)
    ensures r.Failure? ==> r.error == Panic
    ensures r.Success? <==> AsFloat(ProcessorValue(data, FloatKind, name, "max_blur_radius_percentage")).Success?
                            && AsBool(ProcessorValue(data, BoolKind, name, "auto_orient")).Success?
                            && AsBool(ProcessorValue(data, BoolKind, name, "maintain_aspect_ratio")).Success?
    ensures r.Success? ==>
              Success(r.value.maxBlur) == AsFloat(ProcessorValue(data, FloatKind, name, "max_blur_radius_percentage"))
              && Success(r.value.autoOrient) == AsBool(ProcessorValue(data, BoolKind, name, "auto_orient"))
              && Success(r.value.maintainAspectRatio) == AsBool(ProcessorValue(data, BoolKind, name, "maintain_aspect_ratio"))
  {
    var maxBlur := AsFloat(ProcessorValue(data, FloatKind, name, "max_blur_radius_percentage"));
    var autoOrient := AsBool(ProcessorValue(data, BoolKind, name, "auto_orient"));
    var maintain := AsBool(ProcessorValue(data, BoolKind, name, "maintain_aspect_ratio"));
    if maxBlur.Success? && autoOrient.Success? && maintain.Success? then Success(Switches(maxBlur.value, autoOrient.value, maintain.value))
    else Failure(Panic)
  }

  method ReadSwitchSettings(data: map<string, Json>, name: string) returns (r: Result<Switches, Fatal>)
    ensures r == SwitchSettings(data, name)
  {
    ProcessorKeys();
    BlurKeys();
    SwitchKeys();
    var maxBlur := ReadEntryFloat(data, "processors", name, "max_blur_radius_percentage");
    if maxBlur.Failure? {
      return Failure(maxBlur.error);
    }
    var autoOrient := ReadEntryBool(data, "processors", name, "auto_orient");
    if autoOrient.Failure? {
      return Failure(autoOrient.error);
    }
    var maintain := ReadEntryBool(data, "processors", name, "maintain_aspect_ratio");
    if maintain.Failure? {
      return Failure(maintain.error);
    }
    r := Success(Switches(maxBlur.value, autoOrient.value, maintain.value));
  }

  /** The `formats` of the processor's own object, which must exist and be an object. */
  function ProcessorFormats(data: map<string, Json>, name: string, outOfRange: real -> Uint64): Result<map<string, FormatConfig>, Fatal>
  {
    var processor :- Descend(data, ["processors", name]);
    FormatsSettings(data, name, processor, outOfRange)
  }

  /**
   * The processor the document describes under a name. Every failure is a
   * panic, so the order of the reads does not matter here.
   */
  function ProcessorSettings(data: map<string, Json>, name: string, ext: Externals): (r: Result<ProcessorConfig, Fatal>)
    ensures r.Failure? ==> r.error == Panic
  {
    var modeName := AsString(ProcessorValue(data, StringKind, name, "default_scale_mode"));
    var maxDimensions := MaxDimensions(data, name, ext.outOfRange);
    var formats := ProcessorFormats(data, name, ext.outOfRange);
    var output := OutputSettings(data, name, ext.outOfRange);
    var switches := SwitchSettings(data, name);
    if modeName.Success? && maxDimensions.Success? && formats.Success? && output.Success? && switches.Success? then
      var s := switches.value;
      Success(ProcessorConfig(
        name, output.value.quality, ResolvedScaleMode(ext, modeName.value, s.maintainAspectRatio), output.value.height,
        output.value.width, maxDimensions.value, s.maxBlur, s.autoOrient, formats.value, s.maintainAspectRatio))
    else Failure(Panic)
  }

  /**
   * What a processor's settings consist of: its name, the scale mode its
   * mode name resolves to under its aspect-ratio flag, its maximum
   * dimensions, its formats, its output defaults and its switches, each
   * read with the `default` fallback; any of them panicking makes the
   * processor panic.
   */
  lemma ProcessorParts(data: map<string, Json>, name: string, ext: Externals)
    ensures var r := ProcessorSettings(data, name, ext);
            var modeName := AsString(ProcessorValue(data, StringKind, name, "default_scale_mode"));
            var maxDimensions := MaxDimensions(data, name, ext.outOfRange);
            var formats := ProcessorFormats(data, name, ext.outOfRange);
            var output := OutputSettings(data, name, ext.outOfRange);
            var switches := SwitchSettings(data, name);
            (r.Success? <==> modeName.Success? && maxDimensions.Success? && formats.Success? && output.Success? && switches.Success?)
            && (r.Success? ==>
                  r.value.name == name
                  && r.value.defaultScaleMode == ResolvedScaleMode(ext, modeName.value, r.value.maintainAspectRatio)
                  && maxDimensions == Success(r.value.maxImageDimensions)
                  && formats == Success(r.value.formats)
                  && output == Success(OutputDefaults(r.value.imageCompressionQuality, r.value.defaultImageHeight, r.value.defaultImageWidth))
                  && switches == Success(Switches(r.value.maxBlurRadiusPercentage, r.value.autoOrient, r.value.maintainAspectRatio)))
  {
  }

  /** parseProcessorConfig, with its reads in the order of the source. */
  method ParseProcessorConfig(data: map<string, Json>, name: string, ext: Externals) returns (r: Result<ProcessorConfig, Fatal>)
    ensures r == ProcessorSettings(data, name, ext)
  {
    ProcessorKeys();
    var oor := ext.outOfRange;
    var modeName := ReadEntryString(data, "processors", name, "default_scale_mode");
    if modeName.Failure? {
      return Failure(modeName.error);
    }
    var named := Route.ScaleModeNamed(ext.scaleModes, modeName.value);
    var scaleMode := if named == 0 then ext.scaleFill else named;
    var maxDimensions := ReadMaxDimensions(data, name, oor);
    if maxDimensions.Failure? {
      return Failure(maxDimensions.error);
    }
    var processor := Descend(data, ["processors", name]);
    if processor.Failure? {
      return Failure(processor.error);
    }
    var formats := ParseFormats(data, name, processor.value, oor);
    if formats.Failure? {
      return Failure(formats.error);
    }
    var output := ReadOutputSettings(data, name, oor);
    if output.Failure? {
      return Failure(output.error);
    }
    var switches := ReadSwitchSettings(data, name);
    if switches.Failure? {
      return Failure(switches.error);
    }
    if switches.value.maintainAspectRatio {
      scaleMode := ext.scaleAspectFit;
    }
    r := Success(ProcessorConfig(name, output.value.quality, scaleMode, output.value.height, output.value.width,
                                 maxDimensions.value, switches.value.maxBlur, switches.value.autoOrient, formats.value,
                                 switches.value.maintainAspectRatio));
  }

  /**
   * A processor whose scale-mode name is unknown gets ScaleFill, unless its
   * `maintain_aspect_ratio` flag overrides that with ScaleAspectFit.
   */
  lemma UnknownScaleModeIsFill(data: map<string, Json>, name: string, ext: Externals)
    requires ProcessorSettings(data, name, ext).Success?
    requires AsString(ProcessorValue(data, StringKind, name, "default_scale_mode")).value !in ext.scaleModes
    ensures var c := ProcessorSettings(data, name, ext).value;
            c.defaultScaleMode == (if c.maintainAspectRatio then ext.scaleAspectFit else ext.scaleFill)
  {
  }

  // ---------------------------------------------------------------------------
  // One route of parse
  // ---------------------------------------------------------------------------

  predicate IsImagePath(n: string)
  {
    n == "image_path"
  }

  function InvalidPatternMessage(pattern: string, err: string): string
  {
    "Invalid route pattern " + pattern + ": " + err + "\n"
  }

  function NoImagePathMessage(pattern: string): string
  {
    "No 'image_path' named group in regex: " + pattern + "\n"
  }

  /** `routeData[key].(string)`: a missing key or a value of another type panics. */
  function StringAt(fields: map<string, Json>, key: string): (r: Result<string, Fatal>)
    ensures r.Success? <==> key in fields && fields[key].JString?
    ensures r.Success? ==> r.value == fields[key].s
    ensures r.Failure? ==> r.error == Panic
  {
    if Field(fields, key).JString? then Success(Field(fields, key).s) else Failure(Panic)
  }

  /**
   * The route fields parse asserts to be strings: `processor`, `source` and
   * `name` always, `cache_control` when the key is present (a present null
   * fails the assertion too).
   */
  predicate RouteFieldsAreStrings(fields: map<string, Json>)
  {
    Field(fields, "processor").JString? && Field(fields, "source").JString? && Field(fields, "name").JString?
    && ("cache_control" in fields ==> fields["cache_control"].JString?)
  }

  /**
   * The body of parse's loop for one route: the route's data must be an
   * object; the pattern must compile; its last group named `image_path`
   * gives the image-path index; `processor`, `source` and `name` must be
   * strings; `cache_control` is copied when present.
   */
  function ParseRoute(pattern: string, routeData: Json, ext: Externals,
                      sources: map<string, Sources.SourceConfig>, processors: map<string, ProcessorConfig>): (r: Result<RouteConfig, Fatal>)
    ensures !routeData.JObject? ==> r == Failure(Panic)
    ensures routeData.JObject? && ext.compile(pattern).Failure? ==>
              r == Failure(Exit(InvalidPatternMessage(pattern, ext.compile(pattern).error)))
    ensures (routeData.JObject? && ext.compile(pattern).Success?
             && forall i :: 0 <= i < |ext.compile(pattern).value| ==> !IsImagePath(ext.compile(pattern).value[i]))
            ==> r == Failure(Exit(NoImagePathMessage(pattern)))
    ensures r.Success? ==>
              var names := ext.compile(pattern).value;
              ext.compile(pattern).Success?
              && r.value.imagePathIndex < |names| && IsImagePath(names[r.value.imagePathIndex])
              && (forall j :: r.value.imagePathIndex < j < |names| ==> !IsImagePath(names[j]))
    ensures r.Success? ==>
              var fields := routeData.fields;
              routeData.JObject? && r.value.pattern == pattern
              && StringAt(fields, "name") == Success(r.value.name)
              && StringAt(fields, "processor").Success? && StringAt(fields, "source").Success?
              && r.value.processorConfig == (if fields["processor"].s in processors then Some(processors[fields["processor"].s]) else None)
              && r.value.sourceConfig == (if fields["source"].s in sources then Some(sources[fields["source"].s]) else None)
    ensures r.Success? ==>
              ("cache_control" in routeData.fields ==> JString(r.value.cacheControl) == routeData.fields["cache_control"])
              && ("cache_control" !in routeData.fields ==> r.value.cacheControl == "")
    ensures r.Failure? && r.error.Exit? ==> routeData.JObject?
    ensures r.Success? <==>
              routeData.JObject? && ext.compile(pattern).Success?
              && (exists i :: 0 <= i < |ext.compile(pattern).value| && IsImagePath(ext.compile(pattern).value[i]))
              && RouteFieldsAreStrings(routeData.fields)
    ensures (routeData.JObject? && ext.compile(pattern).Success?
             && (exists i :: 0 <= i < |ext.compile(pattern).value| && IsImagePath(ext.compile(pattern).value[i]))
             && !RouteFieldsAreStrings(routeData.fields))
            ==> r == Failure(Panic)
  {
    if !routeData.JObject? then Failure(Panic)
    else
      var fields := routeData.fields;
      var compiled := ext.compile(pattern);
      if compiled.Failure? then Failure(Exit(InvalidPatternMessage(pattern, compiled.error)))
      else
        var index := LastIndex(compiled.value, IsImagePath);
        if index.None? then Failure(Exit(NoImagePathMessage(pattern)))
        else
          var processorKey :- StringAt(fields, "processor");
          var sourceKey :- StringAt(fields, "source");
          var name :- StringAt(fields, "name");
          var processorConfig := if processorKey in processors then Some(processors[processorKey]) else None;
          var sourceConfig := if sourceKey in sources then Some(sources[sourceKey]) else None;
          var cacheControl :- if "cache_control" in fields then StringAt(fields, "cache_control") else Success("");
          Success(RouteConfig(name, cacheControl, pattern, index.value, sourceConfig, processorConfig))
  }

  /** With exactly one group named `image_path`, its index is the image-path index. */
  lemma SingleImagePathGroup(pattern: string, routeData: Json, ext: Externals,
                             sources: map<string, Sources.SourceConfig>, processors: map<string, ProcessorConfig>, i: nat)
    requires ext.compile(pattern).Success?
    requires var names := ext.compile(pattern).value;
             i < |names| && IsImagePath(names[i]) && forall j :: 0 <= j < |names| && j != i ==> !IsImagePath(names[j])
    requires ParseRoute(pattern, routeData, ext, sources, processors).Success?
    ensures ParseRoute(pattern, routeData, ext, sources, processors).value.imagePathIndex == i
  {
  }

  // ---------------------------------------------------------------------------
  // parse
  // ---------------------------------------------------------------------------

  /** The routes parsed in the given order, stopping at the first that fails. */
  function ParseRoutes(order: seq<string>, routes: map<string, Json>, ext: Externals,
                       sources: map<string, Sources.SourceConfig>, processors: map<string, ProcessorConfig>): (r: Result<seq<RouteConfig>, Fatal>)
    ensures r.Success? ==>
              |r.value| == |order|
              && forall i :: 0 <= i < |order| ==> ParseRoute(order[i], Field(routes, order[i]), ext, sources, processors) == Success(r.value[i])
    ensures r.Failure? ==>
              exists i :: (0 <= i < |order|
                           && ParseRoute(order[i], Field(routes, order[i]), ext, sources, processors) == Failure(r.error)
                           && forall j :: 0 <= j < i ==> ParseRoute(order[j], Field(routes, order[j]), ext, sources, processors).Success?)
    decreases |order|
  {
    if |order| == 0 then Success([])
    else
      var first :- ParseRoute(order[0], Field(routes, order[0]), ext, sources, processors);
      var rest :- ParseRoutes(order[1..], routes, ext, sources, processors);
      Success([first] + rest)
  }

  /** Every source of the `sources` section, or a panic if any of them panics. */
  function SourcesSettings(data: map<string, Json>, names: map<string, Json>): Result<map<string, Sources.SourceConfig>, Fatal>
  {
    Collect(names.Keys, k => SourceSettings(data, k))
  }

  /** The loop of parse over the `sources` section, in whatever order the map yields the names. */
  method ParseSources(data: map<string, Json>, names: map<string, Json>) returns (r: Result<map<string, Sources.SourceConfig>, Fatal>)
    ensures r == SourcesSettings(data, names)
  {
    var parse := k => SourceSettings(data, k);
    var remaining := names.Keys;
    var parsed: map<string, Sources.SourceConfig> := map[];
    while remaining != {}
      invariant remaining <= names.Keys
      invariant parsed.Keys == names.Keys - remaining
      invariant forall k :: k in parsed ==> parse(k) == Success(parsed[k])
      decreases remaining
    {
      var name :| name in remaining;
      var source := ParseSourceConfig(data, name);
      if source.Failure? {
        return Failure(source.error);
      }
      parsed := parsed[name := source.value];
      remaining := remaining - {name};
    }
    CollectAll(names.Keys, parse, parsed);
    r := Success(parsed);
  }

  /** Every processor of the `processors` section, or a panic if any of them panics. */
  function ProcessorsSettings(data: map<string, Json>, names: map<string, Json>, ext: Externals): Result<map<string, ProcessorConfig>, Fatal>
  {
    Collect(names.Keys, k => ProcessorSettings(data, k, ext))
  }

  /** The loop of parse over the `processors` section. */
  method ParseProcessors(data: map<string, Json>, names: map<string, Json>, ext: Externals) returns (r: Result<map<string, ProcessorConfig>, Fatal>)
    ensures r == ProcessorsSettings(data, names, ext)
  {
    var parse := k => ProcessorSettings(data, k, ext);
    var remaining := names.Keys;
    var parsed: map<string, ProcessorConfig> := map[];
    while remaining != {}
      invariant remaining <= names.Keys
      invariant parsed.Keys == names.Keys - remaining
      invariant forall k :: k in parsed ==> parse(k) == Success(parsed[k])
      decreases remaining
    {
      var name :| name in remaining;
      var processor := ParseProcessorConfig(data, name, ext);
      if processor.Failure? {
        return Failure(processor.error);
      }
      parsed := parsed[name := processor.value];
      remaining := remaining - {name};
    }
    CollectAll(names.Keys, parse, parsed);
    r := Success(parsed);
  }

  /** `order` enumerates the keys of `routes`, each once: the order Go's map iteration happened to take. */
  predicate EnumeratesKeys(order: seq<string>, routes: map<string, Json>)
  {
    (forall k :: k in routes ==> k in order)
    && (forall i :: 0 <= i < |order| ==> order[i] in routes)
    && forall i, j :: 0 <= i < j < |order| ==> order[i] != order[j]
  }

  /**
   * What parse reads before the routes: the server section, every source and
   * every processor, and the routes section as an object.
   */
  predicate SectionsParse(data: map<string, Json>, ext: Externals)
  {
    ServerSettings(data, ext.outOfRange).Success?
    && "sources" in data && data["sources"].JObject? && SourcesSettings(data, data["sources"].fields).Success?
    && "processors" in data && data["processors"].JObject?
    && ProcessorsSettings(data, data["processors"].fields, ext).Success?
    && "routes" in data && data["routes"].JObject?
  }

  /** The routes in `routeOrder`, parsed against the parsed sources and processors. */
  function RoutesOf(data: map<string, Json>, ext: Externals, routeOrder: seq<string>): Result<seq<RouteConfig>, Fatal>
    requires SectionsParse(data, ext)
  {
    ParseRoutes(routeOrder, data["routes"].fields, ext, SourcesSettings(data, data["sources"].fields).value,
                ProcessorsSettings(data, data["processors"].fields, ext).value)
  }

  /**
   * The configuration the document describes: the server and statsd
   * settings, every source and every processor (only panics can stop those,
   * so their iteration order is immaterial), then the routes in `routeOrder`.
   * A configuration results exactly when every section parses; an exit can
   * only come from a route.
   */
  function ConfigurationOf(data: map<string, Json>, ext: Externals, routeOrder: seq<string>): (r: Result<Configuration, Fatal>)
    requires "routes" in data && data["routes"].JObject? ==> EnumeratesKeys(routeOrder, data["routes"].fields)
    ensures r.Success? <==> SectionsParse(data, ext) && RoutesOf(data, ext, routeOrder).Success?
    ensures r.Success? ==> Success(r.value.serverConfig) == ServerSettings(data, ext.outOfRange)
                           && r.value.statterConfig == ParseStatterConfig(data, ext.outOfRange)
                           && Success(r.value.routeConfigs) == RoutesOf(data, ext, routeOrder)
                           && |r.value.routeConfigs| == |data["routes"].fields|
    ensures r.Failure? && r.error.Exit? ==> SectionsParse(data, ext) && RoutesOf(data, ext, routeOrder) == Failure(r.error)
  {
    var server :- ServerSettings(data, ext.outOfRange);
    var statter := ParseStatterConfig(data, ext.outOfRange);
    var sourceData :- Descend(data, ["sources"]);
    var sources :- SourcesSettings(data, sourceData);
    var processorData :- Descend(data, ["processors"]);
    var processors :- ProcessorsSettings(data, processorData, ext);
    var routeData :- Descend(data, ["routes"]);
    DescendOne(data, "sources");
    DescendOne(data, "processors");
    DescendOne(data, "routes");
    var routes :- ParseRoutes(routeOrder, routeData, ext, sources, processors);
    EnumerationSize(routeOrder, routeData);
    Success(Configuration(server, statter, routes))
  }

  /**
   * The routes of a configuration route by route: the i-th is the parse of
   * the i-th key, with that key as its pattern; an exit is some route's.
   */
  lemma ConfigurationRoutes(data: map<string, Json>, ext: Externals, routeOrder: seq<string>)
    requires "routes" in data && data["routes"].JObject? ==> EnumeratesKeys(routeOrder, data["routes"].fields)
    ensures var r := ConfigurationOf(data, ext, routeOrder);
            r.Success? ==> SectionsParse(data, ext)
                           && |r.value.routeConfigs| == |routeOrder|
                           && forall i :: 0 <= i < |routeOrder| ==>
                                ParseRoute(routeOrder[i], Field(data["routes"].fields, routeOrder[i]), ext,
                                           SourcesSettings(data, data["sources"].fields).value,
                                           ProcessorsSettings(data, data["processors"].fields, ext).value)
                                == Success(r.value.routeConfigs[i])
                                && r.value.routeConfigs[i].pattern == routeOrder[i]
    ensures var r := ConfigurationOf(data, ext, routeOrder);
            r.Failure? && r.error.Exit? ==>
              SectionsParse(data, ext)
              && exists i :: 0 <= i < |routeOrder|
                             && ParseRoute(routeOrder[i], Field(data["routes"].fields, routeOrder[i]), ext,
                                           SourcesSettings(data, data["sources"].fields).value,
                                           ProcessorsSettings(data, data["processors"].fields, ext).value) == Failure(r.error)
  {
  }

  /** parse: the sections in the order of the source, each through its keypath reads. */
  method Parse(data: map<string, Json>, ext: Externals, routeOrder: seq<string>) returns (r: Result<Configuration, Fatal>)
    requires "routes" in data && data["routes"].JObject? ==> EnumeratesKeys(routeOrder, data["routes"].fields)
    ensures r == ConfigurationOf(data, ext, routeOrder)
  {
    var server := ParseServerConfig(data, ext.outOfRange);
    if server.Failure? {
      return Failure(server.error);
    }
    var statter := ParseStatterConfig(data, ext.outOfRange);
    var sourceData := Descend(data, ["sources"]);
    if sourceData.Failure? {
      return Failure(sourceData.error);
    }
    var sources := ParseSources(data, sourceData.value);
    if sources.Failure? {
      return Failure(sources.error);
    }
    var processorData := Descend(data, ["processors"]);
    if processorData.Failure? {
      return Failure(processorData.error);
    }
    var processors := ParseProcessors(data, processorData.value, ext);
    if processors.Failure? {
      return Failure(processors.error);
    }
    var routeData := Descend(data, ["routes"]);
    if routeData.Failure? {
      return Failure(routeData.error);
    }
    var routes := ParseRoutes(routeOrder, routeData.value, ext, sources.value, processors.value);
    if routes.Failure? {
      return Failure(routes.error);
    }
    r := Success(Configuration(server.value, statter, routes.value));
  }

  /** An enumeration of a map's keys has one element per key. */
  lemma EnumerationSize(order: seq<string>, m: map<string, Json>)
    requires EnumeratesKeys(order, m)
    ensures |order| == |m|
  {
    var s := set i | 0 <= i < |order| :: order[i];
    assert s == m.Keys;
    DistinctCard(order);
  }

  lemma {:induction false} DistinctCard(order: seq<string>)
    requires forall i, j :: 0 <= i < j < |order| ==> order[i] != order[j]
    ensures |set i | 0 <= i < |order| :: order[i]| == |order|
    decreases |order|
  {
    if |order| > 0 {
      var init := order[..|order| - 1];
      DistinctCard(init);
      var s := set i | 0 <= i < |order| :: order[i];
      var t := set i | 0 <= i < |init| :: init[i];
      assert s == t + {order[|order| - 1]};
      assert order[|order| - 1] !in t;
    }
  }
}
