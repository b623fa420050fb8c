/** Storename templating (bdl/index.py:323-335): `template.format_map` over
    a `defaultdict(str)` of the item attributes. Templates are literal text
    and `{key}` fields; `{{` and `}}` stand for single braces. */
module Storenames {
  import opened Wrappers
  import opened Errors
  import Strings

  datatype Segment = Lit(c: char) | Field(key: string)

  /** A field name that `format_map` treats as positional: empty (automatic
      numbering) or all digits. */
  predicate Positional(key: string)
  {
    forall i :: 0 <= i < |key| ==> '0' <= key[i] <= '9'
  }

  /** A field key that parses back as itself. */
  predicate PlainKey(key: string)
  {
    !Positional(key) && '{' !in key && '}' !in key
  }

  /** The index of the first '{' or '}' in `s`, or `|s|`. */
  function BraceIndex(s: string): (j: nat)
    ensures j <= |s|
    ensures forall i :: 0 <= i < j ==> s[i] != '{' && s[i] != '}'
    ensures j < |s| ==> s[j] == '{' || s[j] == '}'
    decreases |s|
  {
    if s == [] || s[0] == '{' || s[0] == '}' then 0 else 1 + BraceIndex(s[1..])
  }

  /** The template parsed left to right the way `str.format_map` scans it,
      with its error for each malformed form. */
  function Parse(t: string): (r: Result<seq<Segment>>)
    ensures r.Ok? ==> forall i :: 0 <= i < |r.value| && r.value[i].Field? ==> PlainKey(r.value[i].key)
    decreases |t|
  {
    if t == [] then Ok([])
    else if t[0] == '}' then
      if |t| >= 2 && t[1] == '}' then Prepend(Lit('}'), Parse(t[2..]))
      else Err(Builtin("ValueError", "Single '}' encountered in format string"))
    else if t[0] == '{' then
      if |t| >= 2 && t[1] == '{' then Prepend(Lit('{'), Parse(t[2..]))
      else
        var rest := t[1..];
        var j := BraceIndex(rest);
        if j == |rest| then Err(Builtin("ValueError", "expected '}' before end of string"))
        else if rest[j] == '{' then Err(Builtin("ValueError", "unexpected '{' in field name"))
        else if Positional(rest[..j]) then Err(Builtin("ValueError", "Format string contains positional fields"))
        else Prepend(Field(rest[..j]), Parse(rest[j + 1..]))
    else Prepend(Lit(t[0]), Parse(t[1..]))
  }

  function Prepend(s: Segment, r: Result<seq<Segment>>): (p: Result<seq<Segment>>)
    ensures p.Ok? <==> r.Ok?
    ensures p.Ok? ==> p.value == [s] + r.value
  {
    if r.Ok? then Ok([s] + r.value) else r
  }

  /** The template text of a segment list, doubling literal braces. */
  function Print(segments: seq<Segment>): string
    decreases |segments|
  {
    if segments == [] then ""
    else
      var head := match segments[0]
        case Lit(c) => if c == '{' || c == '}' then [c, c] else [c]
        case Field(k) => "{" + k + "}";
      head + Print(segments[1..])
  }

  /** Every segment list whose fields have plain keys is printed to a
      template that parses back to it. */
  lemma {:induction false} ParsePrint(segments: seq<Segment>)
    requires forall i :: 0 <= i < |segments| && segments[i].Field? ==> PlainKey(segments[i].key)
    ensures Parse(Print(segments)) == Ok(segments)
    decreases |segments|
  {
    if segments != [] {
      var rest := segments[1..];
      ParsePrint(rest);
      assert segments == [segments[0]] + rest;
      match segments[0]
      case Lit(c) => ParseLit(c, Print(rest));
      case Field(k) => ParseField(k, Print(rest));
    }
  }

  /** A printed literal is scanned back as that literal. */
  lemma ParseLit(c: char, tail: string)
    ensures var head := if c == '{' || c == '}' then [c, c] else [c];
            Parse(head + tail) == Prepend(Lit(c), Parse(tail))
  {
    var head := if c == '{' || c == '}' then [c, c] else [c];
    var t := head + tail;
    assert t[|head|..] == tail;
  }

  /** A printed field with a plain key is scanned back as that field. */
  lemma ParseField(k: string, tail: string)
    requires PlainKey(k)
    ensures Parse("{" + k + "}" + tail) == Prepend(Field(k), Parse(tail))
  {
    var t := "{" + k + "}" + tail;
    var body := t[1..];
    assert body == k + "}" + tail;
    BraceIndexAt(k, tail);
    assert body[..|k|] == k;
    assert body[|k| + 1..] == tail;
  }

  lemma {:induction false} BraceIndexAt(k: string, tail: string)
    requires '{' !in k && '}' !in k
    ensures BraceIndex(k + "}" + tail) == |k|
    decreases |k|
  {
    var s := k + "}" + tail;
    if k != [] {
      assert s[0] == k[0];
      assert s[1..] == k[1..] + "}" + tail;
      BraceIndexAt(k[1..], tail);
    }
  }

  /** The text a parsed template renders to: each field is looked up, and a
      key that is absent renders as "" (the `defaultdict(str)`). */
  function Render(segments: seq<Segment>, attributes: map<string, string>): string
    decreases |segments|
  {
    if segments == [] then ""
    else
      var head := match segments[0]
        case Lit(c) => [c]
        case Field(k) => if k in attributes then attributes[k] else "";
      head + Render(segments[1..], attributes)
  }

  /** `template.format_map(attributes)`. */
  function Format(template: string, attributes: map<string, string>): (r: Result<string>)
    ensures Parse(template).Err? <==> r.Err?
  {
    match Parse(template)
    case Ok(segments) => Ok(Render(segments, attributes))
    case Err(e) => Err(e)
  }

  /** The attributes `build_storename` passes: position, filename and
      extension, then the metadata, whose keys override those three
      (index.py:331-334). */
  function Attributes(position: int, filename: string, extension: string,
                      metadata: map<string, string>): map<string, string>
  {
    map["position" := Strings.IntToString(position), "filename" := filename, "extension" := extension]
      + metadata
  }

  /** The attributes hold the three built-in keys and the metadata keys;
      a metadata value wins over a built-in one. */
  lemma AttributesLookup(position: int, filename: string, extension: string,
                         metadata: map<string, string>)
    ensures var attrs := Attributes(position, filename, extension, metadata);
            && attrs.Keys == {"position", "filename", "extension"} + metadata.Keys
            && (forall k :: k in metadata ==> attrs[k] == metadata[k])
            && ("position" !in metadata ==> attrs["position"] == Strings.IntToString(position))
            && ("filename" !in metadata ==> attrs["filename"] == filename)
            && ("extension" !in metadata ==> attrs["extension"] == extension)
  {
  }

  /** A template as `format_map` sees it: its segments, or the error it
      raises on every call. */
  type Parsed = Result<seq<Segment>>

  /** The storename an already parsed template gives for the attributes. */
  function BuildParsed(parsed: Parsed, position: int, filename: string, extension: string,
                       metadata: map<string, string>): (r: Result<string>)
    ensures parsed.Err? <==> r.Err?
  {
    if parsed.Err? then Err(parsed.error)
    else Ok(Render(parsed.value, Attributes(position, filename, extension, metadata)))
  }

  /** `Index.build_storename(item, position, template)`. */
  function BuildStorename(template: string, position: int, filename: string, extension: string,
                          metadata: map<string, string>): (r: Result<string>)
    ensures r == Format(template, Attributes(position, filename, extension, metadata))
  {
    BuildParsed(Parse(template), position, filename, extension, metadata)
  }

  /** The default storename template (index.py:150). */
  const DefaultTemplate: string := "{position}.{extension}"

  /** The segments of the default template. */
  const DefaultSegments: seq<Segment> := [Field("position"), Lit('.'), Field("extension")]

  /** The default template is the printed form of its segments. */
  lemma DefaultTemplatePrinted()
    ensures Print(DefaultSegments) == DefaultTemplate
  {
    var segments := DefaultSegments;
    assert Print(segments[3..]) == "";
    assert Print(segments[2..]) == "{extension}";
    assert Print(segments[1..]) == ".{extension}";
  }

  lemma DefaultTemplateParses()
    ensures Parse(DefaultTemplate) == Ok(DefaultSegments)
  {
    assert "position"[0] == 'p' && "extension"[0] == 'e';
    assert DefaultSegments[0].key == "position" && DefaultSegments[2].key == "extension";
    DefaultTemplatePrinted();
    ParsePrint(DefaultSegments);
  }

  /** A template that parses renders its segments. */
  lemma FormatParsed(template: string, segments: seq<Segment>, attributes: map<string, string>)
    requires Parse(template) == Ok(segments)
    ensures Format(template, attributes) == Ok(Render(segments, attributes))
  {
  }

  /** The default template's segments render to the position and the
      extension joined by a dot when the metadata does not override them. */
  lemma RenderDefault(position: int, filename: string, extension: string,
                      metadata: map<string, string>)
    requires "position" !in metadata && "extension" !in metadata
    ensures Render([Field("position"), Lit('.'), Field("extension")],
                   Attributes(position, filename, extension, metadata))
            == Strings.IntToString(position) + "." + extension
  {
    var segments := [Field("position"), Lit('.'), Field("extension")];
    var attrs := Attributes(position, filename, extension, metadata);
    AttributesLookup(position, filename, extension, metadata);
    assert Render(segments[3..], attrs) == "";
    assert Render(segments[2..], attrs) == extension + Render(segments[3..], attrs);
    assert Render(segments[1..], attrs) == "." + Render(segments[2..], attrs);
    assert Render(segments, attrs) == Strings.IntToString(position) + Render(segments[1..], attrs);
  }

  /** The default segments name an item "<position>.<extension>" unless
      the metadata overrides either key. */
  lemma DefaultParsedName(position: int, filename: string, extension: string,
                          metadata: map<string, string>)
    requires "position" !in metadata && "extension" !in metadata
    ensures BuildParsed(Ok(DefaultSegments), position, filename, extension, metadata)
            == Ok(Strings.IntToString(position) + "." + extension)
  {
    RenderDefault(position, filename, extension, metadata);
  }

  /** With the default template and no overriding metadata, the storename is
      the position and the extension joined by a dot. */
  lemma DefaultStorename(position: int, filename: string, extension: string,
                         metadata: map<string, string>)
    requires "position" !in metadata && "extension" !in metadata
    ensures BuildStorename(DefaultTemplate, position, filename, extension, metadata)
            == Ok(Strings.IntToString(position) + "." + extension)
  {
    DefaultTemplateParses();
    FormatParsed(DefaultTemplate, [Field("position"), Lit('.'), Field("extension")],
                 Attributes(position, filename, extension, metadata));
    RenderDefault(position, filename, extension, metadata);
  }

  /** A metadata key renders the metadata's value, also when it names one
      of the built-in attributes (position, filename, extension). */
  lemma MetadataOverrides(key: string, position: int, filename: string, extension: string,
                          metadata: map<string, string>)
    requires PlainKey(key) && key in metadata
    ensures BuildStorename("{" + key + "}", position, filename, extension, metadata)
            == Ok(metadata[key])
  {
    var segments := [Field(key)];
    var attrs := Attributes(position, filename, extension, metadata);
    AttributesLookup(position, filename, extension, metadata);
    assert Print(segments) == "{" + key + "}" by {
      assert Print(segments[1..]) == "";
    }
    ParsePrint(segments);
    FormatParsed("{" + key + "}", segments, attrs);
    assert attrs[key] == metadata[key];
    assert Render(segments[1..], attrs) == "";
    assert Render(segments, attrs) == attrs[key] + Render(segments[1..], attrs);
    assert attrs[key] + "" == attrs[key];
    assert BuildStorename("{" + key + "}", position, filename, extension, metadata)
           == Format("{" + key + "}", attrs);
  }

  /** A field the attributes do not hold renders as "". */
  lemma UnknownKeyIsEmpty(key: string, attributes: map<string, string>)
    requires PlainKey(key) && key !in attributes
    ensures Format("{" + key + "}", attributes) == Ok("")
  {
    var segments := [Field(key)];
    assert Print(segments) == "{" + key + "}" by {
      assert Print(segments[1..]) == "";
    }
    ParsePrint(segments);
    FormatParsed("{" + key + "}", segments, attributes);
    assert Render(segments, attributes) == "" + Render(segments[1..], attributes);
  }
}
