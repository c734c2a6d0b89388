/**
 * The keypath reader of config.go: lookup of a dotted keypath in the decoded
 * JSON document, with a single retry under `default`, and the typed
 * accessors built on it. A failed Go type assertion is a `Panic`; a
 * diagnostic followed by `os.Exit(1)` is an `Exit` carrying the message.
 */
module Keypath {
  import opened Strings
  import opened Wrappers
  import opened Fmt
  import opened Strconv

  /** A value decoded by encoding/json into `interface{}`; every number is a float64. */
  datatype Json =
    | JNull
    | JBool(b: bool)
    | JNumber(n: real)
    | JString(s: string)
    | JArray(items: seq<Json>)
    | JObject(fields: map<string, Json>)

  /** The reflect.Kind a lookup asks for. */
  datatype Kind = FloatKind | StringKind | BoolKind

  /** How a parse stops: a failed type assertion, or a message on stderr and exit status 1. */
  datatype Fatal = Panic | Exit(message: string)

  /** A value a lookup may hand back: a string, a bool or a number. */
  predicate Scalar(v: Json)
  {
    v.JBool? || v.JNumber? || v.JString?
  }

  /** Reading a map entry in Go: a missing key gives nil, which is also what JSON null decodes to. */
  function Field(m: map<string, Json>, key: string): (v: Json)
    ensures key !in m ==> v == JNull
    ensures key in m ==> v == m[key]
  {
    if key in m then m[key] else JNull
  }

  // ---------------------------------------------------------------------------
  // valueForKeypath
  // ---------------------------------------------------------------------------

  /** Following `path` through nested objects; any step that is missing or not an object panics. */
  function Descend(data: map<string, Json>, path: seq<string>): (r: Result<map<string, Json>, Fatal>)
    ensures r.Failure? ==> r.error == Panic
    ensures |path| == 0 ==> r == Success(data)
    decreases |path|
  {
    if |path| == 0 then Success(data)
    else if path[0] in data && data[path[0]].JObject? then Descend(data[path[0]].fields, path[1..])
    else Failure(Panic)
  }

  /** Descending a path in two parts is descending the first part, then the second. */
  lemma {:induction false} DescendConcat(data: map<string, Json>, a: seq<string>, b: seq<string>)
    ensures Descend(data, a + b) == (if Descend(data, a).Success? then Descend(Descend(data, a).value, b) else Failure(Panic))
    decreases |a|
  {
    if |a| == 0 {
      assert a + b == b;
    } else {
      assert (a + b)[0] == a[0] && (a + b)[1..] == a[1..] + b;
      if a[0] in data && data[a[0]].JObject? {
        DescendConcat(data[a[0]].fields, a[1..], b);
      }
    }
  }

  /** One step into an object. */
  lemma DescendOne(data: map<string, Json>, key: string)
    ensures Descend(data, [key]) == (if key in data && data[key].JObject? then Success(data[key].fields) else Failure(Panic))
  {
    assert [key][1..] == [];
  }

  /** The value at a dotted keypath: every component but the last names an object. */
  function Lookup(data: map<string, Json>, keypath: string): (r: Result<Json, Fatal>)
    ensures r.Failure? ==> r.error == Panic
    ensures '.' !in keypath ==> r == Success(Field(data, keypath))
  {
    var components := Split(keypath, '.');
    var parent :- Descend(data, components[..|components| - 1]);
    Success(Field(parent, components[|components| - 1]))
  }

  /** The value at `key` inside the object reached by `path`. */
  function At(data: map<string, Json>, path: seq<string>, key: string): (r: Result<Json, Fatal>)
    ensures r.Failure? ==> r.error == Panic
    ensures r.Success? <==> Descend(data, path).Success?
  {
    var m :- Descend(data, path);
    Success(Field(m, key))
  }

  /**
   * The components strings.Split finds in the keypath that joins `parts`
   * with dots: the dot-separated pieces of each part, in order.
   */
  function Components(parts: seq<string>): (c: seq<string>)
    ensures (forall i :: 0 <= i < |parts| ==> '.' !in parts[i]) ==> c == parts
    decreases |parts|
  {
    if |parts| == 0 then []
    else
      var rest := Components(parts[1..]);
      if '.' !in parts[0] then
        SplitWithoutSeparator(parts[0], '.');
        Split(parts[0], '.') + rest
      else
        Split(parts[0], '.') + rest
  }

  lemma {:induction false} ComponentsAppend(a: seq<string>, b: seq<string>)
    ensures Components(a + b) == Components(a) + Components(b)
    decreases |a|
  {
    if |a| == 0 {
      assert a + b == b;
    } else {
      assert (a + b)[0] == a[0] && (a + b)[1..] == a[1..] + b;
      ComponentsAppend(a[1..], b);
    }
  }

  /** Splitting a joined keypath gives back the components of its parts. */
  lemma {:induction false} SplitOfJoin(parts: seq<string>)
    requires |parts| > 0
    ensures Split(Join(parts, '.'), '.') == Components(parts)
    decreases |parts|
  {
    if |parts| == 1 {
      assert parts[1..] == [];
      assert Components(parts) == Split(parts[0], '.') + [];
    } else {
      SplitConcat(parts[0], Join(parts[1..], '.'), '.');
      SplitOfJoin(parts[1..]);
    }
  }

  /** The keypath built from `parts` and a dot-free key is looked up along the components of the parts. */
  lemma LookupOfParts(data: map<string, Json>, parts: seq<string>, key: string)
    requires '.' !in key
    ensures Lookup(data, Join(parts + [key], '.')) == At(data, Components(parts), key)
  {
    var all := parts + [key];
    SplitOfJoin(all);
    ComponentsAppend(parts, [key]);
    var c := Components(parts) + [key];
    assert c[..|c| - 1] == Components(parts) && c[|c| - 1] == key;
    var d := Descend(data, Components(parts));
    assert Lookup(data, Join(all, '.')) == (if d.Success? then Success(Field(d.value, key)) else Failure(Panic));
  }

  /** A dot-free section followed by any name: the name's own pieces follow the section. */
  lemma ComponentsOfEntry(section: string, name: string)
    requires '.' !in section
    ensures Components([section, name]) == [section] + Split(name, '.')
  {
    assert [section, name][1..] == [name] && [name][1..] == [];
    SplitWithoutSeparator(section, '.');
    assert Components([name]) == Split(name, '.') + [];
  }

  /** The zero value the kind's type has in Go. */
  function ZeroValue(kind: Kind): (v: Json)
    ensures Scalar(v)
    ensures kind == FloatKind ==> v == JNumber(0.0)
    ensures kind == StringKind ==> v == JString("")
    ensures kind == BoolKind ==> v == JBool(false)
  {
    match kind
    case FloatKind => JNumber(0.0)
    case StringKind => JString("")
    case BoolKind => JBool(false)
  }

  /** The type switch on a found value: scalars as they are, nil as the zero value, anything else panics. */
  function Resolve(found: Json, kind: Kind): (r: Result<Json, Fatal>)
    ensures r.Success? <==> !found.JArray? && !found.JObject?
    ensures r.Success? ==> Scalar(r.value)
    ensures Scalar(found) ==> r == Success(found)
    ensures found.JNull? ==> r == Success(ZeroValue(kind))
  {
    match found
    case JNull => Success(ZeroValue(kind))
    case JBool(_) => Success(found)
    case JNumber(_) => Success(found)
    case JString(_) => Success(found)
    case JArray(_) => Failure(Panic)
    case JObject(_) => Failure(Panic)
  }

  /**
   * valueForKeypath: format the keypath, look it up, and when nothing is
   * there and arguments were given, look again with `default` as the only
   * argument and no arguments for the retry itself.
   */
  function ValueForKeypath(data: map<string, Json>, kind: Kind, format: string, args: seq<string>): (r: Result<Json, Fatal>)
    requires KeypathFormat(format)
    ensures r.Success? ==> Scalar(r.value)
    ensures r.Failure? ==> r.error == Panic
    decreases |args|
  {
    var found :- Lookup(data, Sprintf(format, args));
    if found.JNull? && |args| > 0 then
      SprintfKeepsKeypathFormat(format, ["default"]);
      ValueForKeypath(data, kind, Sprintf(format, ["default"]), [])
    else
      Resolve(found, kind)
  }

  /** The keypath a lookup falls back to: the format with `default` as its argument. */
  function DefaultFormat(format: string): (g: string)
    requires KeypathFormat(format)
    ensures KeypathFormat(g)
  {
    SprintfKeepsKeypathFormat(format, ["default"]);
    Sprintf(format, ["default"])
  }

  /**
   * The lookup in closed form: one lookup of the formatted keypath and at
   * most one more, of the fallback keypath formatted with no arguments.
   */
  lemma AtMostOneRetry(data: map<string, Json>, kind: Kind, format: string, args: seq<string>)
    requires KeypathFormat(format)
    ensures var first := Lookup(data, Sprintf(format, args));
            var again := Lookup(data, Sprintf(DefaultFormat(format), []));
            ValueForKeypath(data, kind, format, args) ==
              if first.Failure? then Failure(Panic)
              else if first.value.JNull? && |args| > 0 then
                (if again.Failure? then Failure(Panic) else Resolve(again.value, kind))
              else Resolve(first.value, kind)
  {
  }

  /** A string, bool or number at the keypath is returned as it is. */
  lemma PresentLeafReturned(data: map<string, Json>, kind: Kind, format: string, args: seq<string>, v: Json)
    requires KeypathFormat(format) && Scalar(v)
    requires Lookup(data, Sprintf(format, args)) == Success(v)
    ensures ValueForKeypath(data, kind, format, args) == Success(v)
  {
  }

  /** Nothing at the keypath and no arguments: the zero value of the kind asked for. */
  lemma MissingLeafWithoutArguments(data: map<string, Json>, kind: Kind, format: string)
    requires KeypathFormat(format)
    requires Lookup(data, Sprintf(format, [])) == Success(JNull)
    ensures ValueForKeypath(data, kind, format, []) == Success(ZeroValue(kind))
  {
  }

  /** A missing or non-object component before the last one panics, with no retry. */
  lemma IntermediateMissingPanics(data: map<string, Json>, kind: Kind, format: string, args: seq<string>)
    requires KeypathFormat(format)
    requires var c := Split(Sprintf(format, args), '.'); Descend(data, c[..|c| - 1]).Failure?
    ensures ValueForKeypath(data, kind, format, args) == Failure(Panic)
  {
  }

  /** An array or object at the keypath panics. */
  lemma CompositeLeafPanics(data: map<string, Json>, kind: Kind, format: string, args: seq<string>, v: Json)
    requires KeypathFormat(format) && (v.JArray? || v.JObject?)
    requires Lookup(data, Sprintf(format, args)) == Success(v)
    ensures ValueForKeypath(data, kind, format, args) == Failure(Panic)
  {
  }

  // ---------------------------------------------------------------------------
  // The keypaths the section parsers build
  // ---------------------------------------------------------------------------

  /** The answer of a lookup with a fallback: the first value unless it is nil, then the second. */
  function WithDefault(first: Result<Json, Fatal>, again: Result<Json, Fatal>, kind: Kind): (r: Result<Json, Fatal>)
    ensures first.Success? && Scalar(first.value) ==> r == first
    ensures first.Success? && first.value.JNull? ==> r == (if again.Failure? then Failure(Panic) else Resolve(again.value, kind))
    ensures first.Failure? ==> r == Failure(Panic)
  {
    if first.Failure? then Failure(Panic)
    else if first.value.JNull? then (if again.Failure? then Failure(Panic) else Resolve(again.value, kind))
    else Resolve(first.value, kind)
  }

  /** The verb part `%s` with and without an argument left. */
  lemma VerbPart(args: seq<string>)
    ensures SimplePart("%s") && PartUses("%s", args) == (if |args| > 0 then 1 else 0)
    ensures |args| > 0 ==> FillPart("%s", args) == args[0]
    ensures |args| == 0 ==> FillPart("%s", args) == "%!s(MISSING)"
  {
    assert "%s"[0] == '%' && "%s"[1] == 's' && "%s"[2..] == "" && "%s"[..2] == "%s";
    assert !NoVerbs("%s");
  }

  /** Fill and Left over the first part, then the rest. */
  lemma FillFront(parts: seq<string>, args: seq<string>)
    requires |parts| > 0 && forall i :: 0 <= i < |parts| ==> SimplePart(parts[i])
    ensures Fill(parts, args) == [FillPart(parts[0], args)] + Fill(parts[1..], args[PartUses(parts[0], args)..])
    ensures Left(parts, args) == Left(parts[1..], args[PartUses(parts[0], args)..])
  {
  }

  lemma FillThree(a: string, b: string, c: string, args: seq<string>)
    requires SimplePart(a) && SimplePart(b) && SimplePart(c)
    ensures forall i :: 0 <= i < |[a, b, c]| ==> SimplePart([a, b, c][i])
    ensures var args1 := args[PartUses(a, args)..];
            var args2 := args1[PartUses(b, args1)..];
            Fill([a, b, c], args) == [FillPart(a, args), FillPart(b, args1), FillPart(c, args2)]
            && Left([a, b, c], args) == args2[PartUses(c, args2)..]
  {
    var args1 := args[PartUses(a, args)..];
    var args2 := args1[PartUses(b, args1)..];
    var abc, bc, c1 := [a, b, c], [b, c], [c];
    assert abc[0] == a && abc[1..] == bc && bc[0] == b && bc[1..] == c1 && c1[0] == c && c1[1..] == [];
    forall i | 0 <= i < 3 ensures SimplePart(abc[i]) {
      if i == 0 {} else if i == 1 {} else { assert abc[i] == c; }
    }
    forall i | 0 <= i < 2 ensures SimplePart(bc[i]) {
      if i == 0 {} else { assert bc[i] == c; }
    }
    FillFront(abc, args);
    FillFront(bc, args1);
    FillFront(c1, args2);
    var x, y, z := FillPart(a, args), FillPart(b, args1), FillPart(c, args2);
    assert [x] + ([y] + ([z] + [])) == [x, y, z];
  }

  lemma FillFour(a: string, b: string, c: string, d: string, args: seq<string>)
    requires SimplePart(a) && SimplePart(b) && SimplePart(c) && SimplePart(d)
    ensures forall i :: 0 <= i < |[a, b, c, d]| ==> SimplePart([a, b, c, d][i])
    ensures var args1 := args[PartUses(a, args)..];
            var args2 := args1[PartUses(b, args1)..];
            var args3 := args2[PartUses(c, args2)..];
            Fill([a, b, c, d], args) == [FillPart(a, args), FillPart(b, args1), FillPart(c, args2), FillPart(d, args3)]
            && Left([a, b, c, d], args) == args3[PartUses(d, args3)..]
  {
    var args1 := args[PartUses(a, args)..];
    var all, bcd := [a, b, c, d], [b, c, d];
    assert all[0] == a && all[1..] == bcd;
    forall i | 0 <= i < 4 ensures SimplePart(all[i]) {
      if i == 0 {} else if i == 1 {} else if i == 2 {} else { assert all[i] == d; }
    }
    FillThree(b, c, d, args1);
    FillFront(all, args);
    var args2 := args1[PartUses(b, args1)..];
    var args3 := args2[PartUses(c, args2)..];
    Cons(FillPart(a, args), FillPart(b, args1), FillPart(c, args2), FillPart(d, args3), "");
  }

  lemma FillFive(a: string, b: string, c: string, d: string, e: string, args: seq<string>)
    requires SimplePart(a) && SimplePart(b) && SimplePart(c) && SimplePart(d) && SimplePart(e)
    ensures forall i :: 0 <= i < |[a, b, c, d, e]| ==> SimplePart([a, b, c, d, e][i])
    ensures var args1 := args[PartUses(a, args)..];
            var args2 := args1[PartUses(b, args1)..];
            var args3 := args2[PartUses(c, args2)..];
            var args4 := args3[PartUses(d, args3)..];
            Fill([a, b, c, d, e], args)
              == [FillPart(a, args), FillPart(b, args1), FillPart(c, args2), FillPart(d, args3), FillPart(e, args4)]
            && Left([a, b, c, d, e], args) == args4[PartUses(e, args4)..]
  {
    var args1 := args[PartUses(a, args)..];
    var all, bcde := [a, b, c, d, e], [b, c, d, e];
    assert all[0] == a && all[1..] == bcde;
    forall i | 0 <= i < 5 ensures SimplePart(all[i]) {
      if i == 0 {} else if i == 1 {} else if i == 2 {} else if i == 3 {} else { assert all[i] == e; }
    }
    FillFour(b, c, d, e, args1);
    FillFront(all, args);
    var args2 := args1[PartUses(b, args1)..];
    var args3 := args2[PartUses(c, args2)..];
    var args4 := args3[PartUses(d, args3)..];
    Cons(FillPart(a, args), FillPart(b, args1), FillPart(c, args2), FillPart(d, args3), FillPart(e, args4));
  }

  /** A plain part consumes nothing and prints as itself. */
  lemma PlainPart(p: string, args: seq<string>)
    requires NoVerbs(p)
    ensures SimplePart(p) && PartUses(p, args) == 0 && FillPart(p, args) == p
  {
  }

  /** A keypath component a format spells out: no verb and no dot. */
  predicate PlainKey(s: string)
  {
    NoVerbs(s) && '.' !in s
  }

  /** `section.field`: a keypath without verbs, such as `server.port`. */
  function SectionFormat(section: string, field: string): (f: string)
    requires NoVerbs(section) && NoVerbs(field)
    ensures KeypathFormat(f) && f == Join([section, field], '.')
  {
    var parts := [section, field];
    PrintedJoin(parts, '.', []);
    Join(parts, '.')
  }

  /** What `section.field` names in the document: a field of the top-level object `section`, resolved. */
  function SectionValue(data: map<string, Json>, kind: Kind, section: string, field: string): Result<Json, Fatal>
  {
    var found :- At(data, [section], field);
    Resolve(found, kind)
  }

  /** Formatting a keypath without verbs prints it unchanged. */
  lemma SectionKeypath(section: string, field: string)
    requires NoVerbs(section) && NoVerbs(field)
    ensures Sprintf(SectionFormat(section, field), []) == Join([section, field], '.')
  {
    var parts := [section, field];
    PlainPart(section, []);
    PlainPart(field, []);
    assert parts[0] == section && parts[1..] == [field] && [field][1..] == [];
    forall i | 0 <= i < 2 ensures SimplePart(parts[i]) {
      if i == 0 {} else { assert parts[i] == field; }
    }
    FillFront(parts, []);
    FillFront([field], []);
    SprintfJoin(parts, '.', []);
  }

  /** A keypath without verbs is looked up once: a field of a top-level object, with no fallback. */
  lemma SectionLookup(data: map<string, Json>, kind: Kind, section: string, field: string)
    requires NoVerbs(section) && NoVerbs(field) && '.' !in section && '.' !in field
    ensures ValueForKeypath(data, kind, SectionFormat(section, field), []) == SectionValue(data, kind, section, field)
    ensures At(data, [section], field) ==
            (if section in data && data[section].JObject? then Success(Field(data[section].fields, field)) else Failure(Panic))
  {
    SectionKeypath(section, field);
    AtMostOneRetry(data, kind, SectionFormat(section, field), []);
    LookupOfParts(data, [section], field);
    assert [section] + [field] == [section, field];
    DescendOne(data, section);
  }

  /** `section.%s.field`: the keypath of one field of a named entry, such as `sources.%s.type`. */
  function EntryFormat(section: string, field: string): (f: string)
    requires NoVerbs(section) && NoVerbs(field)
    ensures KeypathFormat(f)
  {
    var parts := [section, "%s", field];
    VerbPart([]);
    PrintedJoin(parts, '.', []);
    Join(parts, '.')
  }

  /** Both keypaths of an entry lookup, as components. */
  lemma EntryKeypaths(section: string, name: string, field: string)
    requires NoVerbs(section) && NoVerbs(field)
    ensures Sprintf(EntryFormat(section, field), [name]) == Join([section, name, field], '.')
    ensures Sprintf(DefaultFormat(EntryFormat(section, field)), []) == Join([section, "default", field], '.')
  {
    var parts := [section, "%s", field];
    PlainPart(section, [name]);
    PlainPart(section, ["default"]);
    PlainPart(field, []);
    VerbPart([name]);
    VerbPart(["default"]);
    assert [name][1..] == [] && ["default"][1..] == [];
    FillThree(section, "%s", field, [name]);
    FillThree(section, "%s", field, ["default"]);
    SprintfJoin(parts, '.', [name]);
    SprintfJoin(parts, '.', ["default"]);
    var again := [section, "default", field];
    PlainPart("default", []);
    PlainPart(section, []);
    FillThree(section, "default", field, []);
    SprintfJoin(again, '.', []);
  }

  /**
   * What `section.<name>.field` names in the document: the field of the
   * entry reached by the pieces of the name between its dots; when that is
   * nil, the same field of the entry `default`.
   */
  function EntryValue(data: map<string, Json>, kind: Kind, section: string, name: string, field: string): Result<Json, Fatal>
  {
    WithDefault(At(data, [section] + Split(name, '.'), field), At(data, [section, "default"], field), kind)
  }

  /** A field of a named entry, `section.<name>.field`, falls back to the same field of the entry named `default`. */
  lemma EntryLookup(data: map<string, Json>, kind: Kind, section: string, name: string, field: string)
    requires NoVerbs(section) && NoVerbs(field)
    requires '.' !in section && '.' !in field
    ensures ValueForKeypath(data, kind, EntryFormat(section, field), [name]) == EntryValue(data, kind, section, name, field)
  {
    var f := EntryFormat(section, field);
    AtMostOneRetry(data, kind, f, [name]);
    EntryKeypaths(section, name, field);
    OwnEntryAt(data, section, name, field);
    DefaultEntryAt(data, section, field);
  }

  lemma OwnEntryAt(data: map<string, Json>, section: string, name: string, field: string)
    requires '.' !in section && '.' !in field
    ensures Lookup(data, Join([section, name, field], '.')) == At(data, [section] + Split(name, '.'), field)
  {
    LookupOfParts(data, [section, name], field);
    ComponentsOfEntry(section, name);
    assert [section, name] + [field] == [section, name, field];
  }

  lemma DefaultIsPlain()
    ensures '.' !in "default" && NoVerbs("default")
  {
  }

  lemma DefaultEntryAt(data: map<string, Json>, section: string, field: string)
    requires '.' !in section && '.' !in field
    ensures Lookup(data, Join([section, "default", field], '.')) == At(data, [section, "default"], field)
  {
    var path := [section, "default"];
    DefaultIsPlain();
    forall i | 0 <= i < 2 ensures '.' !in path[i] {
      if i == 0 {} else { assert path[i] == "default"; }
    }
    LookupOfParts(data, path, field);
    assert path + [field] == [section, "default", field];
  }

  /** `section.%s.sub.%s.field`: a field of an entry nested in a named entry. */
  function SubEntryFormat(section: string, sub: string, field: string): (f: string)
    requires NoVerbs(section) && NoVerbs(sub) && NoVerbs(field)
    ensures KeypathFormat(f)
  {
    var parts := [section, "%s", sub, "%s", field];
    VerbPart([]);
    PrintedJoin(parts, '.', []);
    Join(parts, '.')
  }

  /** The key the `default` retry of a sub-entry looks under, in place of the inner entry's name. */
  const GarbledName := "%!!(MISSING)s(MISSING)"

  /** The missing-argument marker, formatted once more with no arguments. */
  lemma MarkerPart()
    ensures SimplePart("%!s(MISSING)") && PartUses("%!s(MISSING)", []) == 0
    ensures FillPart("%!s(MISSING)", []) == GarbledName
  {
    MarkerLiterals();
    BangWithoutArgument("s(MISSING)");
    assert SimplePart("%!s(MISSING)");
    PrintedPart("%!s(MISSING)", []);
    assert !NoVerbs("%!s(MISSING)");
  }

  lemma SubEntryFirstKeypath(section: string, name: string, sub: string, entry: string, field: string)
    requires NoVerbs(section) && NoVerbs(sub) && NoVerbs(field)
    ensures Sprintf(SubEntryFormat(section, sub, field), [name, entry]) == Join([section, name, sub, entry, field], '.')
  {
    var parts := [section, "%s", sub, "%s", field];
    PlainPart(section, [name, entry]);
    PlainPart(sub, [entry]);
    PlainPart(field, []);
    VerbPart([name, entry]);
    VerbPart([entry]);
    assert [name, entry][1..] == [entry] && [entry][1..] == [];
    FillFive(section, "%s", sub, "%s", field, [name, entry]);
    SprintfJoin(parts, '.', [name, entry]);
  }

  lemma SubEntryDefault(section: string, sub: string, field: string)
    requires NoVerbs(section) && NoVerbs(sub) && NoVerbs(field)
    ensures DefaultFormat(SubEntryFormat(section, sub, field)) == Join([section, "default", sub, "%!s(MISSING)", field], '.')
  {
    var parts := [section, "%s", sub, "%s", field];
    PlainPart(section, ["default"]);
    PlainPart(sub, []);
    PlainPart(field, []);
    VerbPart(["default"]);
    VerbPart([]);
    assert ["default"][1..] == [];
    FillFive(section, "%s", sub, "%s", field, ["default"]);
    SprintfJoin(parts, '.', ["default"]);
  }

  lemma SubEntryRetryKeypath(section: string, sub: string, field: string)
    requires NoVerbs(section) && NoVerbs(sub) && NoVerbs(field)
    ensures Sprintf(DefaultFormat(SubEntryFormat(section, sub, field)), []) == Join([section, "default", sub, GarbledName, field], '.')
  {
    SubEntryDefault(section, sub, field);
    var again := [section, "default", sub, "%!s(MISSING)", field];
    PlainPart(section, []);
    PlainPart("default", []);
    PlainPart(sub, []);
    PlainPart(field, []);
    MarkerPart();
    FillFive(section, "default", sub, "%!s(MISSING)", field, []);
    SprintfJoin(again, '.', []);
  }

  lemma DotFree4(a: string, b: string, c: string, d: string)
    requires '.' !in a && '.' !in b && '.' !in c && '.' !in d
    ensures forall i :: 0 <= i < |[a, b, c, d]| ==> '.' !in [a, b, c, d][i]
  {
  }

  /**
   * A field of an entry nested in a named entry, such as
   * `processors.<name>.formats.<format>.width`, falls back not to the same
   * field of the same format under `default` but to the field under the key
   * `%!!(MISSING)s(MISSING)`: the fallback format gets one argument for two
   * verbs, and the retry formats the resulting marker once more.
   */
  function SubEntryValue(data: map<string, Json>, kind: Kind, section: string, name: string, sub: string, entry: string, field: string): Result<Json, Fatal>
  {
    WithDefault(At(data, [section] + Split(name, '.') + [sub] + Split(entry, '.'), field),
                At(data, [section, "default", sub, GarbledName], field), kind)
  }

  lemma SubEntryLookup(data: map<string, Json>, kind: Kind, section: string, name: string, sub: string, entry: string, field: string)
    requires NoVerbs(section) && NoVerbs(sub) && NoVerbs(field)
    requires '.' !in section && '.' !in sub && '.' !in field
    ensures ValueForKeypath(data, kind, SubEntryFormat(section, sub, field), [name, entry])
            == SubEntryValue(data, kind, section, name, sub, entry, field)
  {
    var f := SubEntryFormat(section, sub, field);
    AtMostOneRetry(data, kind, f, [name, entry]);
    SubEntryFirstKeypath(section, name, sub, entry, field);
    SubEntryRetryKeypath(section, sub, field);
    OwnSubEntryAt(data, section, name, sub, entry, field);
    DefaultSubEntryAt(data, section, sub, field);
  }

  lemma OwnSubEntryAt(data: map<string, Json>, section: string, name: string, sub: string, entry: string, field: string)
    requires '.' !in section && '.' !in sub && '.' !in field
    ensures Lookup(data, Join([section, name, sub, entry, field], '.'))
            == At(data, [section] + Split(name, '.') + [sub] + Split(entry, '.'), field)
  {
    var parts := [section, name, sub, entry];
    LookupOfParts(data, parts, field);
    ComponentsOfSubEntry(section, name, sub, entry);
    assert parts + [field] == [section, name, sub, entry, field];
  }

  lemma ComponentsOfSubEntry(section: string, name: string, sub: string, entry: string)
    requires '.' !in section && '.' !in sub
    ensures Components([section, name, sub, entry]) == [section] + Split(name, '.') + [sub] + Split(entry, '.')
  {
    ComponentsAppend([section, name], [sub, entry]);
    assert [section, name] + [sub, entry] == [section, name, sub, entry];
    ComponentsOfEntry(section, name);
    ComponentsOfEntry(sub, entry);
  }

  lemma DefaultSubEntryAt(data: map<string, Json>, section: string, sub: string, field: string)
    requires '.' !in section && '.' !in sub && '.' !in field
    ensures Lookup(data, Join([section, "default", sub, GarbledName, field], '.'))
            == At(data, [section, "default", sub, GarbledName], field)
  {
    var garbled := GarbledName;
    assert '.' !in garbled;
    DotFree4(section, "default", sub, garbled);
    var path := [section, "default", sub, garbled];
    LookupOfParts(data, path, field);
    assert path + [field] == [section, "default", sub, garbled, field];
  }

  // ---------------------------------------------------------------------------
  // The typed accessors
  // ---------------------------------------------------------------------------

  /** stringForKeypath: the value must be a string, or the type assertion panics. */
  function StringForKeypath(data: map<string, Json>, format: string, args: seq<string>): (r: Result<string, Fatal>)
    requires KeypathFormat(format)
    ensures r.Success? <==> ValueForKeypath(data, StringKind, format, args).Success?
                            && ValueForKeypath(data, StringKind, format, args).value.JString?
    ensures r.Success? ==> ValueForKeypath(data, StringKind, format, args) == Success(JString(r.value))
    ensures r.Failure? ==> r.error == Panic
  {
    var v :- ValueForKeypath(data, StringKind, format, args);
    if v.JString? then Success(v.s) else Failure(Panic)
  }

  /** floatForKeypath: the value must be a number. */
  function FloatForKeypath(data: map<string, Json>, format: string, args: seq<string>): (r: Result<real, Fatal>)
    requires KeypathFormat(format)
    ensures r.Success? <==> ValueForKeypath(data, FloatKind, format, args).Success?
                            && ValueForKeypath(data, FloatKind, format, args).value.JNumber?
    ensures r.Success? ==> ValueForKeypath(data, FloatKind, format, args) == Success(JNumber(r.value))
    ensures r.Failure? ==> r.error == Panic
  {
    var v :- ValueForKeypath(data, FloatKind, format, args);
    if v.JNumber? then Success(v.n) else Failure(Panic)
  }

  /** boolForKeypath: the value must be a bool. */
  function BoolForKeypath(data: map<string, Json>, format: string, args: seq<string>): (r: Result<bool, Fatal>)
    requires KeypathFormat(format)
    ensures r.Success? <==> ValueForKeypath(data, BoolKind, format, args).Success?
                            && ValueForKeypath(data, BoolKind, format, args).value.JBool?
    ensures r.Success? ==> ValueForKeypath(data, BoolKind, format, args) == Success(JBool(r.value))
    ensures r.Failure? ==> r.error == Panic
  {
    var v :- ValueForKeypath(data, BoolKind, format, args);
    if v.JBool? then Success(v.b) else Failure(Panic)
  }

  const TwoTo64: real := 18446744073709551616.0

  /**
   * Go's conversion of a float64 to uint64: truncation toward zero when the
   * truncated value fits; what happens otherwise is left to the
   * implementation and is a parameter here.
   */
  function Uint64OfFloat(x: real, outOfRange: real -> Uint64): (n: Uint64)
    ensures 0.0 <= x < TwoTo64 ==> n as real <= x < n as real + 1.0
    ensures -1.0 < x < 0.0 ==> n == 0
    ensures x <= -1.0 || x >= TwoTo64 ==> n == outOfRange(x)
  {
    if 0.0 <= x < TwoTo64 then x.Floor
    else if -1.0 < x < 0.0 then 0
    else outOfRange(x)
  }

  /** A whole number in range converts to itself. */
  lemma Uint64OfWhole(k: nat, outOfRange: real -> Uint64)
    requires (k as real) < TwoTo64
    ensures Uint64OfFloat(k as real, outOfRange) == k
  {
  }

  /** uintForKeypath: floatForKeypath, converted to uint64. */
  function UintForKeypath(data: map<string, Json>, format: string, args: seq<string>, outOfRange: real -> Uint64): (r: Result<nat, Fatal>)
    requires KeypathFormat(format)
    ensures r.Success? <==> FloatForKeypath(data, format, args).Success?
    ensures r.Success? ==> r.value == Uint64OfFloat(FloatForKeypath(data, format, args).value, outOfRange)
  {
    var x :- FloatForKeypath(data, format, args);
    Success(Uint64OfFloat(x, outOfRange))
  }

  /** The type assertion `.(string)` on a found value: a value of another type panics. */
  function AsString(v: Result<Json, Fatal>): (r: Result<string, Fatal>)
    ensures r.Success? <==> v.Success? && v.value.JString?
    ensures r.Success? ==> v == Success(JString(r.value))
    ensures r.Failure? ==> r.error == Panic
  {
    if v.Success? && v.value.JString? then Success(v.value.s) else Failure(Panic)
  }

  /** The type assertion `.(float64)` on a found value. */
  function AsFloat(v: Result<Json, Fatal>): (r: Result<real, Fatal>)
    ensures r.Success? <==> v.Success? && v.value.JNumber?
    ensures r.Success? ==> v == Success(JNumber(r.value))
    ensures r.Failure? ==> r.error == Panic
  {
    if v.Success? && v.value.JNumber? then Success(v.value.n) else Failure(Panic)
  }

  /** The type assertion `.(bool)` on a found value. */
  function AsBool(v: Result<Json, Fatal>): (r: Result<bool, Fatal>)
    ensures r.Success? <==> v.Success? && v.value.JBool?
    ensures r.Success? ==> v == Success(JBool(r.value))
    ensures r.Failure? ==> r.error == Panic
  {
    if v.Success? && v.value.JBool? then Success(v.value.b) else Failure(Panic)
  }

  /** A found number converted to uint64. */
  function AsUint(v: Result<Json, Fatal>, outOfRange: real -> Uint64): (r: Result<nat, Fatal>)
    ensures r.Success? <==> AsFloat(v).Success?
    ensures r.Success? ==> r.value == Uint64OfFloat(AsFloat(v).value, outOfRange)
    ensures r.Failure? ==> r.error == Panic
  {
    var x :- AsFloat(v);
    Success(Uint64OfFloat(x, outOfRange))
  }
}
