/** The Nextcloud file search adapter (src/grantora/adapters/nextcloud.py). */
module Nextcloud {
  import opened Prelude
  import opened Text
  import opened Json
  import opened Tables
  import opened JsonSchema
  import opened Retry
  import opened AdapterFields

  /** urlparse: whether there is a scheme, and the path. */
  datatype Url = Url(hasScheme: bool, path: string)

  /** A string for which isdigit() is false, one int() reads, or one int() rejects all the same, such as a
      superscript. */
  datatype Digits = NotDigits | Number(n: int) | NotAnInteger

  /** The library calls. urlparse and datetime.fromtimestamp may raise, which reads as None. */
  datatype Library = Library(
    urlparse: string -> Option<Url>,
    unquote: string -> string,
    isoTimestamp: Json -> Option<string>,
    digits: string -> Digits)

  // ----- Items -----

  const FILE_KEYS := ["files", "entries", "results", "items"]

  /** _items_from_ocs_payload */
  function OcsItems(fields: Fields): Json {
    var ocs := Get(fields, "ocs");
    if !ocs.Obj? then Null
    else
      var data := Get(ocs.fields, "data");
      if data.Obj? then FirstPresent(data.fields, ["entries", "files", "results", "items"]) else data
  }

  /** _extract_file_items */
  function FileItems(payload: Json): Option<seq<Json>> {
    match payload
    case Arr(_) => Objects(payload)
    case Obj(fields) =>
      var ocs := OcsItems(fields);
      var direct := if ocs.Null? then FirstPresent(fields, FILE_KEYS) else ocs;
      if !direct.Null? then Objects(direct)
      else
        var data := Get(fields, "data");
        Objects(if data.Obj? then FirstPresent(data.fields, FILE_KEYS) else data)
    case _ => None
  }

  // ----- One file -----

  /** _file_value: the first key present decides, and a null there sends the search to the attributes. */
  function FileValue(file: Fields, keys: seq<string>): Json {
    var direct := FirstPresent(file, keys);
    if !direct.Null? then direct
    else
      var attributes := Get(file, "attributes");
      if attributes.Obj? then FirstPresent(attributes.fields, keys) else Null
  }

  function FileString(file: Fields, keys: seq<string>): Option<string> {
    NonBlank(FileValue(file, keys))
  }

  /** What follows the first occurrence of the marker. */
  function AfterMarker(path: string, marker: string): Option<string> {
    if marker <= path then Some(path[|marker|..])
    else if path == "" then None
    else AfterMarker(path[1..], marker)
  }

  const DAV_MARKER := "/remote.php/dav/files/"

  /** The decoded text _normalize_path works on. */
  function RawPath(value: string, lib: Library): Option<string> {
    match lib.urlparse(value)
    case None => None
    case Some(url) => Some(lib.unquote(if url.hasScheme then url.path else value))
  }

  function Absolute(path: string): string {
    if path != "" && path[0] == '/' then path else "/" + path
  }

  /** _normalize_path: the path below the user's DAV root, always absolute; None is the ValueError of urlparse. */
  function NormalizePath(value: string, lib: Library): (path: Option<string>)
    ensures path.Some? ==> path.value != "" && path.value[0] == '/'
    ensures path.Some? <==> lib.urlparse(value).Some?
  {
    match RawPath(value, lib)
    case None => None
    case Some(raw) =>
      var below := match AfterMarker(raw, DAV_MARKER)
        case None => raw
        case Some(owned) => (match AfterMarker(owned, "/") case None => "" case Some(rest) => rest);
      Some(Absolute(below))
  }

  /** _normalize_path, whose local `path` is reassigned step by step. */
  method NormalizePathInSteps(value: string, lib: Library) returns (result: Option<string>)
    ensures result == NormalizePath(value, lib)
  {
    var parsed := lib.urlparse(value);
    if parsed.None? {
      return None;
    }
    var path := lib.unquote(if parsed.value.hasScheme then parsed.value.path else value);
    var marked := AfterMarker(path, DAV_MARKER);
    if marked.Some? {
      path := marked.value;
      var rest := AfterMarker(path, "/");
      path := if rest.Some? then rest.value else "";
    }
    if path == "" || path[0] != '/' {
      path := "/" + path;
    }
    return Some(path);
  }

  /** The text a file's path is read from. */
  function PathText(file: Fields): Option<string> {
    OrElse(
      FileString(file, ["path", "file_path", "filePath", "dav_path", "davPath"]),
      FileString(file, ["resourceUrl", "resource_url", "url", "link", "href"]))
  }

  /** _file_path */
  function FilePath(file: Fields, lib: Library): Normal<string> {
    match PathText(file)
    case None => Unusable
    case Some(value) => (match NormalizePath(value, lib) case None => Crash case Some(below) => Got(below))
  }

  predicate IsSlash(c: char) { c == '/' }

  /** What follows the last slash. */
  function LastSegment(s: string): string
    decreases |s|
  {
    match AfterMarker(s, "/")
    case None => s
    case Some(rest) => AfterMarkerShrinks(s, "/"); LastSegment(rest)
  }

  lemma {:induction false} AfterMarkerShrinks(path: string, marker: string)
    requires marker != ""
    ensures AfterMarker(path, marker).Some? ==> |AfterMarker(path, marker).value| < |path|
  {
    if !(marker <= path) && path != "" {
      AfterMarkerShrinks(path[1..], marker);
    }
  }

  function FileName(file: Fields, path: string): string {
    match FirstString(file, ["display_name", "displayName", "title", "name", "file_name", "fileName"])
    case Some(name) => name
    case None =>
      var segment := LastSegment(DropRight(path, IsSlash));
      if segment == "" then path else segment
  }

  const SIZE_KEYS := ["size", "bytes", "file_size", "fileSize"]
  const TIME_KEYS := ["modified_at", "modifiedAt", "last_modified", "mtime"]

  /** _file_int */
  function FileSize(file: Fields, lib: Library): Normal<Json> {
    match FileValue(file, SIZE_KEYS)
    case Int(i) => Got(Int(i))
    case Str(s) =>
      (match lib.digits(s) case Number(n) => Got(Int(n)) case NotDigits => Got(Null) case NotAnInteger => Crash)
    case _ => Got(Null)
  }

  /** _modified_at */
  function ModifiedAt(file: Fields, lib: Library): Normal<Json> {
    var value := FileValue(file, TIME_KEYS);
    match value
    case Int(_) => IsoTime(value, lib)
    case Float(_) => IsoTime(value, lib)
    case Str(_) => (match NonBlank(value) case Some(s) => Got(Str(s)) case None => Got(Null))
    case _ => Got(Null)
  }

  function IsoTime(value: Json, lib: Library): Normal<Json> {
    match lib.isoTimestamp(value) case None => Crash case Some(time) => Got(Str(time))
  }

  function MimeType(file: Fields): string {
    match FileString(file, ["mime_type", "mimeType", "mimetype", "content_type"])
    case Some(mime) => mime
    case None => ""
  }

  /** _normalized_file: a missing path makes a file unusable, since a path always yields a name; with a path,
      a size or a time the library rejects raises. */
  function NormalizedFile(file: Fields, lib: Library): Normal<Json> {
    match FilePath(file, lib)
    case Unusable => Unusable
    case Crash => Crash
    case Got(path) =>
      var size, time := FileSize(file, lib), ModifiedAt(file, lib);
      if !size.Got? || !time.Got? then Crash
      else
        Got(Obj(map[
          "path" := Str(path), "display_name" := Str(FileName(file, path)), "mime_type" := Str(MimeType(file)),
          "size" := size.value, "modified_at" := time.value, "source" := Str("nextcloud")]))
  }

  function Normalizer(lib: Library): Fields -> Normal<Json> {
    file => NormalizedFile(file, lib)
  }

  function Files(payload: Json, limit: int, lib: Library): Normal<seq<Json>> {
    match FileItems(payload)
    case None => Unusable
    case Some(items) => FileItemsAreObjects(payload); NormalizeAll(Take(items, limit), Normalizer(lib))
  }

  // ----- What a file is made of -----

  ghost const FILE_LISTS := ["files", "entries", "results", "items"]
  ghost const OCS_LISTS := ["entries", "files", "results", "items"]

  /** Where the OCS envelope keeps its list: the data, or the first of four keys in it. */
  ghost predicate OcsHolds(fields: Fields, value: Json) {
    && "ocs" in fields && fields["ocs"].Obj?
    && var data := Get(fields["ocs"].fields, "data");
       if data.Obj? then Holds(data.fields, OCS_LISTS, value) else data == value
  }

  /** Files are read from the payload itself, from the OCS envelope, from the first of four keys where there is
      nothing in the envelope, or else from the data. */
  lemma FileItemsTell(payload: Json)
    requires FileItems(payload).Some?
    ensures var list := Arr(FileItems(payload).value);
      || payload == list
      || (payload.Obj? && OcsHolds(payload.fields, list))
      || (payload.Obj? && (forall value :: OcsHolds(payload.fields, value) ==> value.Null?)
           && (|| Holds(payload.fields, FILE_LISTS, list)
               || ((forall value :: Holds(payload.fields, FILE_LISTS, value) ==> value.Null?)
                    && var data := Get(payload.fields, "data");
                       data == list || (data.Obj? && Holds(data.fields, FILE_LISTS, list)))))
  {
    hide Holds, FirstPresent;
    if payload.Obj? {
      FirstPresentIff(payload.fields, FILE_LISTS);
      var data, ocs := Get(payload.fields, "data"), Get(payload.fields, "ocs");
      if data.Obj? { FirstPresentIff(data.fields, FILE_LISTS); }
      if ocs.Obj? && Get(ocs.fields, "data").Obj? { FirstPresentIff(Get(ocs.fields, "data").fields, OCS_LISTS); }
    }
  }

  /** A value of the file: the first key of the file that is there or, if that is null or there is none, the first
      key of its attributes. */
  ghost predicate FileHolds(file: Fields, keys: seq<string>, value: Json) {
    || (!value.Null? && Holds(file, keys, value))
    || ((forall other :: Holds(file, keys, other) ==> other.Null?)
         && var attributes := Get(file, "attributes");
            if attributes.Obj? && (exists other :: Holds(attributes.fields, keys, other)) then
              Holds(attributes.fields, keys, value)
            else value.Null?)
  }

  lemma FileValueHolds(file: Fields, keys: seq<string>)
    ensures FileHolds(file, keys, FileValue(file, keys))
  {
    hide Holds, FirstPresent;
    FirstPresentIff(file, keys);
    var attributes := Get(file, "attributes");
    if attributes.Obj? {
      FirstPresentIff(attributes.fields, keys);
      if other :| Holds(attributes.fields, keys, other) { HeldIsFirst(attributes.fields, keys, other); }
    }
  }

  lemma HeldIsFirst(fields: Fields, keys: seq<string>, value: Json)
    requires Holds(fields, keys, value)
    ensures FirstPresent(fields, keys) == value
  {
    FirstPresentIs(fields, keys);
  }

  ghost const NAMES := ["display_name", "displayName", "title", "name", "file_name", "fileName"]
  ghost const MIME_TYPES := ["mime_type", "mimeType", "mimetype", "content_type"]
  ghost const SIZES := ["size", "bytes", "file_size", "fileSize"]
  ghost const TIMES := ["modified_at", "modifiedAt", "last_modified", "mtime"]
  ghost const PATHS := ["path", "file_path", "filePath", "dav_path", "davPath"]
  ghost const LINKS := ["resourceUrl", "resource_url", "url", "link", "href"]

  /** The text a value gives, if any. */
  ghost predicate TextOf(value: Json, text: string) {
    value.Str? && Strip(value.s, IsSpace) == text && text != ""
  }

  /** The path comes from a path field, or else from a link. */
  ghost predicate PathFrom(file: Fields, text: string) {
    exists path, link :: FileHolds(file, PATHS, path) && FileHolds(file, LINKS, link)
      && (TextOf(path, text) || (TextOf(link, text) && forall other :: !TextOf(path, other)))
  }

  ghost predicate NamedAs(file: Fields, path: string, name: Json) {
    if NoText(file, NAMES) then
      var segment := LastSegment(DropRight(path, IsSlash)); name == Str(if segment == "" then path else segment)
    else name.Str? && Picks(file, NAMES, name.s)
  }

  ghost predicate MimeFrom(file: Fields, mime: Json) {
    exists value :: FileHolds(file, MIME_TYPES, value) && mime.Str?
      && (TextOf(value, mime.s) || (mime.s == "" && forall other :: !TextOf(value, other)))
  }

  /** An integer stays, text of digits becomes its number, anything else null. */
  ghost predicate SizeFrom(file: Fields, size: Json, lib: Library) {
    exists value :: FileHolds(file, SIZES, value) && size ==
      if value.Int? then value
      else if value.Str? && lib.digits(value.s).Number? then Int(lib.digits(value.s).n)
      else Null
  }

  /** A number becomes its time in text, text stays, anything else is null. */
  ghost predicate TimeFrom(file: Fields, time: Json, lib: Library) {
    exists value :: FileHolds(file, TIMES, value)
      && if value.Int? || value.Float? then time.Str? && lib.isoTimestamp(value) == Some(time.s)
         else (time.Str? && TextOf(value, time.s)) || (time.Null? && forall other :: !TextOf(value, other))
  }

  /** The fields of a normalised file, told from the payload. */
  lemma FileTells(file: Fields, lib: Library)
    requires NormalizedFile(file, lib).Got?
    ensures NormalizedFile(file, lib).value.Obj?
    ensures var m := NormalizedFile(file, lib).value.fields;
      && m.Keys == {"path", "display_name", "mime_type", "size", "modified_at", "source"}
      && m["source"] == Str("nextcloud") && m["path"].Str?
      && (exists text :: PathFrom(file, text) && NormalizePath(text, lib) == Some(m["path"].s))
      && NamedAs(file, m["path"].s, m["display_name"])
      && MimeFrom(file, m["mime_type"])
      && SizeFrom(file, m["size"], lib)
      && TimeFrom(file, m["modified_at"], lib)
  {
    hide FileHolds, FileValue, Picks, NoText, FirstString, LastSegment, DropRight, NormalizePath, Strip, IsSpace;
    FirstStringIff(file, NAMES);
    FileValueHolds(file, PATHS);
    FileValueHolds(file, LINKS);
    FileValueHolds(file, MIME_TYPES);
    FileValueHolds(file, SIZES);
    FileValueHolds(file, TIMES);
    var m := NormalizedFile(file, lib).value.fields;
    PathTextFrom(file);
    assert TimeFrom(file, m["modified_at"], lib) by {
      var value := FileValue(file, TIMES);
      assert FileHolds(file, TIMES, value);
    }
    assert SizeFrom(file, m["size"], lib) by {
      var value := FileValue(file, SIZES);
      assert FileHolds(file, SIZES, value);
    }
    assert MimeFrom(file, m["mime_type"]) by {
      var value := FileValue(file, MIME_TYPES);
      assert FileHolds(file, MIME_TYPES, value);
    }
  }

  lemma PathTextFrom(file: Fields)
    ensures PathText(file).Some? ==> PathFrom(file, PathText(file).value)
  {
    hide FileHolds, FileValue, Strip, IsSpace;
    FileValueHolds(file, PATHS);
    FileValueHolds(file, LINKS);
  }

  lemma FileItemsAreObjects(payload: Json)
    ensures FileItems(payload).Some? ==> forall i :: 0 <= i < |FileItems(payload).value| ==>
      FileItems(payload).value[i].Obj?
  {
  }

  /** _normalized_files: the loop ends at the first file that is unusable or raises. */
  method NormalizedFiles(payload: Json, limit: int, lib: Library) returns (files: Normal<seq<Json>>)
    ensures files == Files(payload, limit, lib)
  {
    hide NormalizedFile, FileItems, NormalizeAll;
    var raw := FileItems(payload);
    if raw.None? {
      return Unusable;
    }
    FileItemsAreObjects(payload);
    var items := Take(raw.value, limit);
    var normalize := Normalizer(lib);
    var done: seq<Json> := [];
    NothingToNormalize(normalize);
    for i := 0 to |items|
      invariant NormalizeAll(items[..i], normalize) == Got(done)
    {
      NormalizeStep(items, i, normalize, done);
      var file := NormalizedFile(items[i].fields, lib);
      if !file.Got? {
        return if file.Crash? then Crash else Unusable;
      }
      done := done + [file.value];
    }
    assert items[..|items|] == items;
    return Got(done);
  }

  // ----- Conformance -----

  lemma OrNullValidates(name: string, j: Json)
    requires j.Null? || HasType(name, j)
    ensures Validates(OrNullSchema(name), j)
  {
    var s := OrNullSchema(name).fields;
    assert s["type"].items[0] == Str(name) && s["type"].items[1] == Str("null");
    assert TypeHolds(s["type"], j) && BoundsHold(s, j) && KeysHold(s, j);
  }

  /** Sizes are integers or null, times strings or null. */
  lemma OptionalFieldsValidate(file: Fields, lib: Library)
    ensures FileSize(file, lib).Got? ==> Validates(OrNullSchema("integer"), FileSize(file, lib).value)
    ensures ModifiedAt(file, lib).Got? ==> Validates(OrNullSchema("string"), ModifiedAt(file, lib).value)
  {
    hide FileValue, NonBlank, Validates;
    if FileSize(file, lib).Got? { OrNullValidates("integer", FileSize(file, lib).value); }
    if ModifiedAt(file, lib).Got? { OrNullValidates("string", ModifiedAt(file, lib).value); }
  }

  lemma FileIsValid(file: Fields, lib: Library)
    requires NormalizedFile(file, lib).Got?
    ensures Validates(FILE_SCHEMA, NormalizedFile(file, lib).value)
  {
    hide FilePath, FileName, MimeType, Validates, FileSize, ModifiedAt, OrNullSchema, ConstSchema, ClosedObject;
    var properties: Fields :=
      map["path" := STRING_SCHEMA, "display_name" := STRING_SCHEMA, "mime_type" := STRING_SCHEMA,
          "size" := OrNullSchema("integer"), "modified_at" := OrNullSchema("string"),
            "source" := ConstSchema("nextcloud")];
    var required := ["path", "display_name", "mime_type", "size", "modified_at", "source"];
    assert FILE_SCHEMA == ClosedObject(properties, required);
    var path := FilePath(file, lib).value;
    StringsValidate(path, "nextcloud");
    StringsValidate(FileName(file, path), "nextcloud");
    StringsValidate(MimeType(file), "nextcloud");
    OptionalFieldsValidate(file, lib);
    ClosedObjectValidatesIff(properties, required, NormalizedFile(file, lib).value.fields);
  }

  ghost predicate Normalizable(items: seq<Json>, lib: Library) {
    forall i :: 0 <= i < |items| ==> items[i].Obj? && NormalizedFile(items[i].fields, lib).Got?
  }

  /** When normalising one file raises: the text of its path is one urlparse rejects, or it has a path and
      its size is text that isdigit() passes and int() rejects, or its time is a number fromtimestamp rejects. */
  lemma FileCrashesIff(file: Fields, lib: Library)
    ensures NormalizedFile(file, lib).Crash? <==> (
      && PathText(file).Some?
      && var size, time := FileValue(file, SIZE_KEYS), FileValue(file, TIME_KEYS);
         || lib.urlparse(PathText(file).value).None?
         || (size.Str? && lib.digits(size.s).NotAnInteger?)
         || ((time.Int? || time.Float?) && lib.isoTimestamp(time).None?))
    ensures NormalizedFile(file, lib).Unusable? <==> PathText(file).None?
  {
    hide FileValue, FileName, MimeType, NonBlank, PathText;
  }

  /** As for contacts: one file per item up to the limit, valid against the template. Otherwise there is no
      answer when there is no list of objects or the first file that fails has no path, and an exception
      when the library rejects the first one that fails. */
  lemma FilesConform(payload: Json, limit: int, lib: Library)
    ensures var r := Files(payload, limit, lib);
      && (r.Got? <==> FileItems(payload).Some? && Normalizable(Take(FileItems(payload).value, limit), lib))
      && (r.Got? ==> |r.value| == |Take(FileItems(payload).value, limit)|)
      && (r.Got? ==> Validates(NEXTCLOUD_OUTPUT_SCHEMA, Obj(map["files" := Arr(r.value)])))
      && (r.Crash? <==> FileItems(payload).Some? && Crashes(Take(FileItems(payload).value, limit), lib))
  {
    hide FileItems, NormalizedFile, Validates;
    var r := Files(payload, limit, lib);
    FileItemsAreObjects(payload);
    if r.Got? {
      var items := Take(FileItems(payload).value, limit);
      forall i | 0 <= i < |r.value| ensures Validates(FILE_SCHEMA, r.value[i]) {
        FileIsValid(items[i].fields, lib);
      }
      ListValidatesIff("files", FILE_SCHEMA, r.value);
    }
    if FileItems(payload).Some? { CrashesIff(Take(FileItems(payload).value, limit), lib); }
  }

  /** The first file that is not normalised raises. */
  ghost predicate Crashes(items: seq<Json>, lib: Library) {
    exists i :: 0 <= i < |items| && CrashesAt(items, lib, i)
  }

  ghost predicate CrashesAt(items: seq<Json>, lib: Library, i: nat)
    requires i < |items|
  {
    && items[i].Obj? && NormalizedFile(items[i].fields, lib).Crash?
    && forall j :: 0 <= j < i ==> items[j].Obj? && NormalizedFile(items[j].fields, lib).Got?
  }

  lemma CrashesIff(items: seq<Json>, lib: Library)
    requires forall i :: 0 <= i < |items| ==> items[i].Obj?
    ensures NormalizeAll(items, Normalizer(lib)).Crash? <==> Crashes(items, lib)
  {
    hide NormalizedFile;
    var all := NormalizeAll(items, Normalizer(lib));
    if !all.Got? {
      var i := FirstStop(items, Normalizer(lib));
      assert all.Crash? ==> CrashesAt(items, lib, i);
      if j :| 0 <= j < |items| && CrashesAt(items, lib, j) {
        assert i == j;
      }
    }
  }

  // ----- Paths and names -----

  /** Split at a marker that occurs nowhere earlier: what follows it is what AfterMarker finds. */
  lemma {:induction false} AfterFirstMarker(before: string, marker: string, after: string)
    requires marker != ""
    requires forall i :: 0 <= i < |before| ==> !(marker <= (before + marker + after)[i..])
    ensures AfterMarker(before + marker + after, marker) == Some(after)
  {
    var path := before + marker + after;
    if before == "" {
      assert path == marker + after;
    } else {
      assert path[1..] == before[1..] + marker + after;
      assert !(marker <= path[0..]) && path[0..] == path;
      forall i | 0 <= i < |before[1..]| ensures !(marker <= (before[1..] + marker + after)[i..]) {
        assert path[1..][i..] == path[i + 1..];
      }
      AfterFirstMarker(before[1..], marker, after);
    }
  }

  lemma {:induction false} NoMarker(path: string, marker: string)
    requires marker != "" && forall i :: 0 <= i < |path| ==> !(marker <= path[i..])
    ensures AfterMarker(path, marker) == None
  {
    if path != "" {
      assert path[0..] == path;
      forall i | 0 <= i < |path[1..]| ensures !(marker <= path[1..][i..]) {
        assert path[1..][i..] == path[i + 1..];
      }
      NoMarker(path[1..], marker);
    }
  }

  lemma AfterFirstSlash(before: string, after: string)
    requires '/' !in before
    ensures AfterMarker(before + "/" + after, "/") == Some(after)
  {
    var path := before + "/" + after;
    forall i | 0 <= i < |before| ensures !("/" <= path[i..]) {
      assert path[i..][0] == before[i];
    }
    AfterFirstMarker(before, "/", after);
  }

  /** The text a path is read from: of a URL with a scheme its path, of anything else all of it, decoded. */
  ghost function Decoded(value: string, lib: Library): string
    requires lib.urlparse(value).Some?
  {
    var url := lib.urlparse(value).value; lib.unquote(if url.hasScheme then url.path else value)
  }

  /** A DAV path loses its prefix and the user segment; any other path is only made absolute. */
  lemma DavPathIsBelowTheUser(value: string, lib: Library, before: string, user: string, rest: string)
    requires '/' !in user && lib.urlparse(value).Some?
    requires Decoded(value, lib) == before + "/remote.php/dav/files/" + (user + "/" + rest)
    requires forall i :: 0 <= i < |before| ==> !("/remote.php/dav/files/" <= Decoded(value, lib)[i..])
    ensures NormalizePath(value, lib) == Some(if rest != "" && rest[0] == '/' then rest else "/" + rest)
  {
    hide AfterMarker;
    AfterFirstMarker(before, "/remote.php/dav/files/", user + "/" + rest);
    AfterFirstSlash(user, rest);
  }

  lemma OtherPathIsKept(value: string, lib: Library)
    requires lib.urlparse(value).Some?
    requires forall i :: 0 <= i < |Decoded(value, lib)| ==> !("/remote.php/dav/files/" <= Decoded(value, lib)[i..])
    ensures var path := Decoded(value, lib);
      NormalizePath(value, lib) == Some(if path != "" && path[0] == '/' then path else "/" + path)
  {
    hide AfterMarker;
    NoMarker(Decoded(value, lib), "/remote.php/dav/files/");
  }

  lemma {:induction false} SegmentAfterDirectory(directory: string, name: string)
    requires '/' !in name
    ensures LastSegment(directory + "/" + name) == name
    decreases |directory|
  {
    hide AfterMarker;
    var path := directory + "/" + name;
    if '/' in directory {
      var i := FirstSlash(directory);
      var rest := directory[i + 1..];
      assert path == directory[..i] + "/" + (rest + "/" + name);
      AfterFirstSlash(directory[..i], rest + "/" + name);
      SegmentAfterDirectory(rest, name);
    } else {
      AfterFirstSlash(directory, name);
      if AfterMarker(name, "/").Some? { FoundSlash(name); }
    }
  }

  lemma {:induction false} FoundSlash(s: string)
    ensures AfterMarker(s, "/").Some? ==> '/' in s
  {
    if s != "" && s[0] != '/' { FoundSlash(s[1..]); }
  }

  lemma {:induction false} FirstSlash(s: string) returns (i: nat)
    requires '/' in s
    ensures i < |s| && s[i] == '/' && '/' !in s[..i]
  {
    if s[0] == '/' {
      i := 0;
    } else {
      var j := FirstSlash(s[1..]);
      i := j + 1;
      forall k | 0 <= k < i ensures s[k] != '/' {
        if k > 0 { assert s[1..][..j][k - 1] == s[k]; }
      }
    }
  }

  lemma {:induction false} SlashesDrop(s: string, slashes: string)
    requires s != "" && s[|s| - 1] != '/' && forall i :: 0 <= i < |slashes| ==> slashes[i] == '/'
    ensures DropRight(s + slashes, IsSlash) == s
  {
    if slashes == "" {
      assert s + slashes == s;
    } else {
      var front := slashes[..|slashes| - 1];
      assert (s + slashes)[..|s + slashes| - 1] == s + front;
      SlashesDrop(s, front);
    }
  }

  /** A file without a name of its own is called by the last segment of its path, trailing slashes aside. */
  lemma UnnamedFileIsItsLastSegment(file: Fields, directory: string, name: string, slashes: string)
    requires FirstString(file, ["display_name", "displayName", "title", "name", "file_name", "fileName"]).None?
    requires name != "" && '/' !in name && forall i :: 0 <= i < |slashes| ==> slashes[i] == '/'
    ensures FileName(file, directory + "/" + name + slashes) == name
  {
    hide LastSegment, DropRight;
    var path := directory + "/" + name;
    assert path[|path| - 1] == name[|name| - 1];
    SlashesDrop(path, slashes);
    SegmentAfterDirectory(directory, name);
  }

  /** Which secrets _auth_headers can use. */
  predicate UsableSecret(secretType: string, secret: string) {
    secretType == "bearer_token" || (secretType == "basic_auth" && ':' in secret)
  }

  /** What invoke makes of the outcome of its last send. */
  function SendResult(outcome: SendOutcome, maxBytes: nat, limit: int, lib: Library): AdapterResult {
    ResultOfSend(outcome, maxBytes, "files", (payload: Json) => Files(payload, limit, lib))
  }

  lemma SendResultConforms(outcome: SendOutcome, maxBytes: nat, limit: int, lib: Library)
    requires limit >= 0
    ensures var r := SendResult(outcome, maxBytes, limit, lib);
      && (r.AdapterOk? ==> Validates(NEXTCLOUD_OUTPUT_SCHEMA, r.data) && AtMost(r.data, "files", limit))
      && (r.AdapterOk? <==>
            && outcome.Answer? && outcome.response.status < 400 && outcome.response.size <= maxBytes
            && outcome.response.body.Some? && Files(outcome.response.body.value, limit, lib).Got?)
      && (r.AdapterOk? ==> r.data == Obj(map["files" := Arr(Files(outcome.response.body.value, limit, lib).value)]))
      && (r.AdapterError? ==> IsErrorCode(r.code))
      && (r.AdapterRaised? ==>
           outcome.Answer? && outcome.response.body.Some? && Files(outcome.response.body.value, limit, lib).Crash?)
  {
    hide Files, FileItems, Validates, ResultOfSend, IsErrorCode;
    ResultsOfSend(outcome, maxBytes, "files", (payload: Json) => Files(payload, limit, lib));
    if outcome.Answer? && outcome.response.body.Some? { FilesConform(outcome.response.body.value, limit, lib); }
  }

  /** What invoke comes to, against a stream of outcomes. */
  function InvokeResult(capability: Capability, input: Fields, baseUrl: Option<string>, secretType: string,
                        secret: string,
                        readOnlyAttempts: int, maxBytes: nat, outcomes: nat -> SendOutcome, lib: Library): AdapterResult
    requires capability.inputSchema.Obj?
  {
    if capability.operation != "files.search" then AdapterError("adapter_operation_unsupported", None, false)
    else if baseUrl.None? then AdapterError("upstream_not_found", None, false)
    else if !UsableSecret(secretType, secret) then AdapterError("secret_type_unsupported", None, false)
    else
      var limit := RequestedLimit(input, capability.inputSchema.fields);
      SendResult(LastOutcome(capability.risk, readOnlyAttempts, outcomes), maxBytes, limit, lib)
  }

  /** An ok result validates against the template and holds no more files than were asked for; an error
      has a code, and invoke raises only where normalising the last answer does. */
  lemma InvokeConforms(capability: Capability, input: Fields, baseUrl: Option<string>, secretType: string,
                       secret: string,
                       readOnlyAttempts: int, maxBytes: nat, outcomes: nat -> SendOutcome, lib: Library)
    requires capability.inputSchema.Obj?
    ensures var r :=
      InvokeResult(capability, input, baseUrl, secretType, secret, readOnlyAttempts, maxBytes, outcomes, lib);
      && (r.AdapterOk? ==> Validates(NEXTCLOUD_OUTPUT_SCHEMA, r.data))
      && (capability.operation != "files.search" ==> r == AdapterError("adapter_operation_unsupported", None, false))
      && (capability.operation == "files.search" && baseUrl.None? ==>
           r == AdapterError("upstream_not_found", None, false))
      && (capability.operation == "files.search" && baseUrl.Some?
           && !(secretType == "bearer_token" || (secretType == "basic_auth" && ':' in secret)) ==>
           r == AdapterError("secret_type_unsupported", None, false))
      && (capability.operation == "files.search" && baseUrl.Some?
           && (secretType == "bearer_token" || (secretType == "basic_auth" && ':' in secret)) ==>
            var last, limit := LastOutcome(capability.risk, readOnlyAttempts, outcomes),
              RequestedLimit(input, capability.inputSchema.fields);
            && (r.AdapterOk? <==>
                  && last.Answer? && last.response.status < 400 && last.response.size <= maxBytes
                  && last.response.body.Some? && Files(last.response.body.value, limit, lib).Got?)
            && (r.AdapterOk? ==>
                  r.data == Obj(map["files" := Arr(Files(last.response.body.value, limit, lib).value)])))
      && (r.AdapterOk? ==> AtMost(r.data, "files", RequestedLimit(input, capability.inputSchema.fields)))
      && (r.AdapterError? ==> IsErrorCode(r.code))
      && (r.AdapterRaised? ==>
            var last := LastOutcome(capability.risk, readOnlyAttempts, outcomes);
            last.Answer? && last.response.body.Some?
            && Files(last.response.body.value, RequestedLimit(input, capability.inputSchema.fields), lib).Crash?)
  {
    hide IsErrorCode, SendResult, LastOutcome, Validates, RequestedLimit, AtMost, Files;
    UpstreamCodes();
    ResponseCodes();
    var last := LastOutcome(capability.risk, readOnlyAttempts, outcomes);
    SendResultConforms(last, maxBytes, RequestedLimit(input, capability.inputSchema.fields), lib);
  }

  /** invoke: nothing is sent for an unsupported call, and never more than the allowed attempts. */
  method Invoke(capability: Capability, input: Fields, baseUrl: Option<string>, secretType: string, secret: string,
                readOnlyAttempts: int, maxBytes: nat, outcomes: nat -> SendOutcome, lib: Library)
    returns (result: AdapterResult, sent: nat)
    requires capability.inputSchema.Obj?
    ensures result
      == InvokeResult(capability, input, baseUrl, secretType, secret, readOnlyAttempts, maxBytes, outcomes, lib)
    ensures sent > 0 <==> capability.operation == "files.search" && baseUrl.Some? && UsableSecret(secretType, secret)
    ensures sent <= Attempts(capability.risk, readOnlyAttempts)
    ensures result.AdapterOk? ==> sent > 0 && Validates(NEXTCLOUD_OUTPUT_SCHEMA, result.data)
  {
    hide Files, Validates, RequestedLimit, Retryable, Sends;
    InvokeConforms(capability, input, baseUrl, secretType, secret, readOnlyAttempts, maxBytes, outcomes, lib);
    sent := 0;
    if capability.operation != "files.search" {
      return AdapterError("adapter_operation_unsupported", None, false), 0;
    }
    if baseUrl.None? {
      return AdapterError("upstream_not_found", None, false), 0;
    }
    if !UsableSecret(secretType, secret) {
      return AdapterError("secret_type_unsupported", None, false), 0;
    }
    var limit := RequestedLimit(input, capability.inputSchema.fields);
    var response, error;
    response, error, sent := SendWithReadOnlyRetries(capability.risk, readOnlyAttempts, outcomes);
    if error.Some? {
      return error.value, sent;
    }
    var answer := response.value;
    if ErrorOfStatus(answer.status).Some? {
      return ErrorOfStatus(answer.status).value, sent;
    }
    if answer.size > maxBytes {
      return AdapterError("upstream_payload_too_large", Some(answer.status), false), sent;
    }
    if answer.body.None? {
      return AdapterError("upstream_invalid_response", Some(answer.status), false), sent;
    }
    var files := NormalizedFiles(answer.body.value, limit, lib);
    match files
    case Unusable => return AdapterError("upstream_invalid_response", Some(answer.status), false), sent;
    case Crash => return AdapterRaised, sent;
    case Got(items) => return AdapterOk(Obj(map["files" := Arr(items)])), sent;
  }
}
