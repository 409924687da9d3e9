/** What the NethVoice and Nextcloud adapters have in common: picking fields, limits, and turning an HTTP
    answer into a result (src/grantora/adapters/nethvoice.py, src/grantora/adapters/nextcloud.py). */
module AdapterFields {
  import opened Prelude
  import opened Text
  import opened Json
  import opened JsonSchema
  import opened Retry

  type Fields = map<string, Json>

  /** The characters str.strip() removes. */
  predicate IsSpace(c: char) {
    || '\t' <= c <= '\r' || '\U{1c}' <= c <= ' ' || c == '\U{85}' || c == '\U{a0}' || c == '\U{1680}'
    || '\U{2000}' <= c <= '\U{200a}' || c == '\U{2028}' || c == '\U{2029}' || c == '\U{202f}' || c == '\U{205f}'
      || c == '\U{3000}'
  }

  // ----- Picking fields -----

  /** _first_present: the first key that is there, even if its value is null; None reads as Null. */
  function FirstPresent(fields: Fields, keys: seq<string>): Json {
    if keys == [] then Null
    else if keys[0] in fields then fields[keys[0]]
    else FirstPresent(fields, keys[1..])
  }

  /** A string that is not blank, stripped. */
  function NonBlank(j: Json): Option<string> {
    if j.Str? && Strip(j.s, IsSpace) != "" then Some(Strip(j.s, IsSpace)) else None
  }

  /** _first_string: the first key whose value is a string that is not blank. */
  function FirstString(fields: Fields, keys: seq<string>): Option<string> {
    if keys == [] then None
    else if NonBlank(Get(fields, keys[0])).Some? then NonBlank(Get(fields, keys[0]))
    else FirstString(fields, keys[1..])
  }

  /** The field is a string that strips to the text, and not to nothing. */
  predicate HasText(fields: Fields, key: string, text: string) {
    key in fields && fields[key].Str? && Strip(fields[key].s, IsSpace) == text && text != ""
  }

  /** The key at this position has the text, and none before it has any. */
  ghost predicate FirstTextAt(fields: Fields, keys: seq<string>, text: string, i: nat) {
    i < |keys| && HasText(fields, keys[i], text) && forall j, other :: 0 <= j < i ==> !HasText(fields, keys[j], other)
  }

  ghost predicate Picks(fields: Fields, keys: seq<string>, text: string) {
    exists i: nat :: FirstTextAt(fields, keys, text, i)
  }

  ghost predicate NoText(fields: Fields, keys: seq<string>) {
    forall key, text :: key in keys ==> !HasText(fields, key, text)
  }

  /** What is picked is the text of the first key that has one. */
  lemma {:induction false} FirstStringIff(fields: Fields, keys: seq<string>)
    ensures forall text :: FirstString(fields, keys) == Some(text) <==> Picks(fields, keys, text)
    ensures FirstString(fields, keys).None? <==> NoText(fields, keys)
  {
    hide Strip, IsSpace;
    if keys != [] {
      hide FirstTextAt;
      var rest := keys[1..];
      FirstStringIff(fields, rest);
      var here := NonBlank(Get(fields, keys[0]));
      assert forall text :: here == Some(text) <==> HasText(fields, keys[0], text);
      forall text ensures Picks(fields, keys, text) <==>
        HasText(fields, keys[0], text) || (NoText(fields, [keys[0]]) && Picks(fields, rest, text)) {
        PicksFirst(fields, keys, text);
      }
      assert keys[0] in [keys[0]] && keys == [keys[0]] + rest;
      if here.Some? { assert HasText(fields, keys[0], here.value); }
      assert here.None? <==> NoText(fields, [keys[0]]);
      assert NoText(fields, keys) <==> NoText(fields, [keys[0]]) && NoText(fields, rest);
    }
  }

  lemma PicksFirst(fields: Fields, keys: seq<string>, text: string)
    requires keys != []
    ensures Picks(fields, keys, text) <==>
      HasText(fields, keys[0], text) || (NoText(fields, [keys[0]]) && Picks(fields, keys[1..], text))
  {
    hide Strip, IsSpace;
    var rest := keys[1..];
    if i: nat :| FirstTextAt(fields, keys, text, i) {
      if i > 0 { assert FirstTextAt(fields, rest, text, i - 1); }
    }
    if HasText(fields, keys[0], text) { assert FirstTextAt(fields, keys, text, 0); }
    if i: nat :| FirstTextAt(fields, rest, text, i) {
      if NoText(fields, [keys[0]]) {
        assert keys[0] in [keys[0]];
        assert forall j :: 0 < j < |keys| ==> keys[j] == rest[j - 1];
        assert FirstTextAt(fields, keys, text, i + 1);
      }
    }
  }

  /** The key at this position is there, and none before it. */
  predicate FirstAt(fields: Fields, keys: seq<string>, i: nat) {
    i < |keys| && keys[i] in fields && forall j :: 0 <= j < i ==> keys[j] !in fields
  }

  /** The value of the first key that is there, or null. */
  lemma {:induction false} FirstPresentIs(fields: Fields, keys: seq<string>)
    ensures forall i: nat :: FirstAt(fields, keys, i) ==> FirstPresent(fields, keys) == fields[keys[i]]
    ensures (forall key :: key in keys ==> key !in fields) ==> FirstPresent(fields, keys).Null?
  {
    if keys != [] {
      FirstPresentIs(fields, keys[1..]);
      forall i: nat | FirstAt(fields, keys, i) ensures FirstPresent(fields, keys) == fields[keys[i]] {
        if i > 0 {
          assert keys[0] !in fields;
          assert forall j :: 0 <= j < i - 1 ==> keys[1..][j] == keys[j + 1];
          assert FirstAt(fields, keys[1..], i - 1);
        }
      }
    }
  }

  /** The first of the keys that is there has this value. */
  ghost predicate Holds(fields: Fields, keys: seq<string>, value: Json) {
    exists i: nat :: FirstAt(fields, keys, i) && fields[keys[i]] == value
  }

  /** What the keys lead to is null when there is none of them, and also when the first one there is null. */
  lemma FirstPresentIff(fields: Fields, keys: seq<string>)
    ensures forall value: Json :: !value.Null? ==> (FirstPresent(fields, keys) == value <==> Holds(fields, keys, value))
    ensures FirstPresent(fields, keys).Null? <==> forall value: Json :: Holds(fields, keys, value) ==> value.Null?
  {
    FirstPresentIs(fields, keys);
    if exists key :: key in keys && key in fields {
      var i := FirstThere(fields, keys);
      assert Holds(fields, keys, fields[keys[i]]);
    }
  }

  lemma {:induction false} FirstThere(fields: Fields, keys: seq<string>) returns (i: nat)
    requires exists key :: key in keys && key in fields
    ensures FirstAt(fields, keys, i)
  {
    i := 0;
    while keys[i] !in fields
      invariant i < |keys| && forall j :: 0 <= j < i ==> keys[j] !in fields
      decreases |keys| - i
    {
      i := i + 1;
    }
  }

  /** What is picked is stripped already and not blank. */
  lemma {:induction false} PickedIsTrimmed(fields: Fields, keys: seq<string>)
    ensures FirstString(fields, keys).Some? ==>
      FirstString(fields, keys).value != "" && Stripped(FirstString(fields, keys).value, IsSpace)
  {
    hide Strip, Stripped, IsSpace;
    if keys != [] {
      PickedIsTrimmed(fields, keys[1..]);
      if Get(fields, keys[0]).Str? { var _, _ := StripCorrect(Get(fields, keys[0]).s, IsSpace); }
    }
  }

  /** A field already normalised is picked as it is when its key comes first. */
  lemma FirstKeyIsPicked(fields: Fields, keys: seq<string>, text: string)
    requires keys != [] && keys[0] in fields && fields[keys[0]] == Str(text)
    requires text != "" && Stripped(text, IsSpace)
    ensures FirstString(fields, keys) == Some(text)
  {
    hide IsSpace, Stripped, Strip;
    TrimmedIsKept(text, IsSpace);
  }

  lemma {:induction false} NoKeyPresent(fields: Fields, keys: seq<string>)
    requires forall i :: 0 <= i < |keys| ==> Get(fields, keys[i]) == Null || Get(fields, keys[i]) == Str("")
    ensures FirstString(fields, keys) == None
  {
    if keys != [] { NoKeyPresent(fields, keys[1..]); }
  }

  function OrElse<T>(first: Option<T>, second: Option<T>): Option<T> {
    if first.Some? then first else second
  }

  /** The list behind a raw value, if it is a list of objects. */
  function Objects(raw: Json): (items: Option<seq<Json>>)
    ensures items.Some? ==> forall i :: 0 <= i < |items.value| ==> items.value[i].Obj?
  {
    if raw.Arr? && forall i :: 0 <= i < |raw.items| ==> raw.items[i].Obj? then Some(raw.items) else None
  }

  /** xs[:limit], where a negative limit counts from the end. */
  function Take<T>(xs: seq<T>, limit: int): (taken: seq<T>)
    ensures taken <= xs
    ensures limit >= 0 ==> |taken| == if |xs| < limit then |xs| else limit
    ensures limit < 0 ==> |taken| == if |xs| < -limit then 0 else |xs| + limit
  {
    if limit >= |xs| then xs
    else if limit >= 0 then xs[..limit]
    else if -limit >= |xs| then []
    else xs[..|xs| + limit]
  }

  /** {name: [...]} with at most n items. */
  predicate AtMost(data: Json, name: string, n: int) {
    data.Obj? && name in data.fields && data.fields[name].Arr? && |data.fields[name].items| <= n
  }

  // ----- Limits -----

  const DEFAULT_LIMIT := 50

  /** _schema_maximum_limit */
  function SchemaLimit(inputSchema: Fields): int {
    var properties := if "properties" in inputSchema then inputSchema["properties"] else Obj(map[]);
    if !properties.Obj? then DEFAULT_LIMIT
    else
      var limit := if "limit" in properties.fields then properties.fields["limit"] else Obj(map[]);
      if !limit.Obj? then DEFAULT_LIMIT
      else
        var maximum := Get(limit.fields, "maximum");
        if !maximum.Int? then DEFAULT_LIMIT
        else if maximum.i < 1 then 1 else maximum.i
  }

  /** _requested_limit: a limit that is not a Python int is ignored. */
  function RequestedLimit(input: Fields, inputSchema: Fields): (limit: int)
    ensures 1 <= limit
    ensures limit <= SchemaLimit(inputSchema)
  {
    var bound := SchemaLimit(inputSchema);
    var requested := if "limit" in input then input["limit"] else Int(bound);
    if !requested.Int? then bound
    else
      var raised := if requested.i < 1 then 1 else requested.i;
      if raised < bound then raised else bound
  }

  /** The bound is the schema's integer maximum for the limit, at least 1, or else 50. */
  lemma SchemaLimitIs(inputSchema: Fields)
    ensures var properties := Get(inputSchema, "properties");
      if properties.Obj? && Get(properties.fields, "limit").Obj?
        && Get(Get(properties.fields, "limit").fields, "maximum").Int? then
        var maximum := Get(Get(properties.fields, "limit").fields, "maximum").i;
        SchemaLimit(inputSchema) >= 1 && (maximum >= 1 ==> SchemaLimit(inputSchema) == maximum)
          && (maximum < 1 ==> SchemaLimit(inputSchema) == 1)
      else SchemaLimit(inputSchema) == 50
  {
  }

  /** An integer limit is brought between 1 and the bound, the nearest value winning; anything else gives the bound. */
  lemma RequestedLimitIsNearest(input: Fields, inputSchema: Fields)
    ensures var limit, bound := RequestedLimit(input, inputSchema), SchemaLimit(inputSchema);
      if "limit" in input && input["limit"].Int? then
        forall n :: 1 <= n <= bound ==> Distance(limit, input["limit"].i) <= Distance(n, input["limit"].i)
      else limit == bound
  {
    hide SchemaLimit;
  }

  function Distance(a: int, b: int): int {
    if a < b then b - a else a - b
  }

  lemma SearchSchemaLimit()
    ensures SchemaLimit(SEARCH_INPUT_SCHEMA.fields) == 50
  {
    assert SEARCH_INPUT_SCHEMA.fields["properties"] == Obj(SEARCH_PROPERTIES);
  }

  /** A limit the input schema accepts reaches the upstream unchanged exactly when it is written as an
      integer, or as 50.0: the schema also accepts 5.0, which the adapter replaces by 50. */
  lemma AcceptedLimitIsKeptIff(input: Fields)
    requires Validates(SEARCH_INPUT_SCHEMA, Obj(input)) && "limit" in input
    ensures Numeric(input["limit"], false).Some?
    ensures RequestedLimit(input, SEARCH_INPUT_SCHEMA.fields) as real == Numeric(input["limit"], false).value
      <==> (input["limit"].Int? || input["limit"] == Float(50.0))
  {
    hide Validates;
    SearchInputValidatesIff(input);
    SearchSchemaLimit();
  }

  /** The schema accepts 5.0 and the adapter asks for 50. */
  lemma FloatLimitIsReplaced()
    ensures var input: Fields := map["query" := Str("Mario"), "limit" := Float(5.0)];
      Validates(SEARCH_INPUT_SCHEMA, Obj(input)) && RequestedLimit(input, SEARCH_INPUT_SCHEMA.fields) == 50
  {
    hide Validates;
    var input: Fields := map["query" := Str("Mario"), "limit" := Float(5.0)];
    assert 5.0 == 5.0.Floor as real;
    SearchInputValidatesIff(input);
    AcceptedLimitIsKeptIff(input);
    SearchSchemaLimit();
  }

  // ----- Normalising a list -----

  /** What a normaliser does: give a value, return None, or let an exception through. */
  datatype Normal<+T> = Got(value: T) | Unusable | Crash

  /** Every item normalised, in order; otherwise what the first item that cannot be does. */
  function NormalizeAll(items: seq<Json>, normalize: Fields -> Normal<Json>): (all: Normal<seq<Json>>)
    requires forall i :: 0 <= i < |items| ==> items[i].Obj?
    ensures all.Got? <==> forall i :: 0 <= i < |items| ==> normalize(items[i].fields).Got?
    ensures all.Got? ==> |all.value| == |items| && forall i :: 0 <= i < |items| ==>
      all.value[i] == normalize(items[i].fields).value
  {
    if items == [] then Got([])
    else
      match NormalizeAll(items[..|items| - 1], normalize)
      case Unusable => Unusable
      case Crash => Crash
      case Got(earlier) =>
        match normalize(items[|items| - 1].fields)
        case Unusable => Unusable
        case Crash => Crash
        case Got(last) => Got(earlier + [last])
  }

  /** The first item that is not normalised. */
  predicate StopsAt(items: seq<Json>, normalize: Fields -> Normal<Json>, i: nat)
    requires i < |items| && forall j :: 0 <= j < |items| ==> items[j].Obj?
  {
    !normalize(items[i].fields).Got? && forall j :: 0 <= j < i ==> normalize(items[j].fields).Got?
  }

  /** A list that is not normalised stops at one item, and does what that item does. */
  lemma {:induction false} FirstStop(items: seq<Json>, normalize: Fields -> Normal<Json>) returns (i: nat)
    requires (forall j :: 0 <= j < |items| ==> items[j].Obj?) && !NormalizeAll(items, normalize).Got?
    ensures i < |items| && StopsAt(items, normalize, i)
    ensures NormalizeAll(items, normalize).Crash? <==> normalize(items[i].fields).Crash?
  {
    var front := items[..|items| - 1];
    if NormalizeAll(front, normalize).Got? {
      i := |items| - 1;
      assert forall j :: 0 <= j < i ==> items[j] == front[j];
    } else {
      i := FirstStop(front, normalize);
      assert forall j :: 0 <= j <= i ==> items[j] == front[j];
    }
  }

  /** Once an item stops the normalisation, no later item changes the outcome. */
  lemma {:induction false} StoppedForGood(items: seq<Json>, n: nat, normalize: Fields -> Normal<Json>)
    requires n <= |items| && (forall i :: 0 <= i < |items| ==> items[i].Obj?)
      && !NormalizeAll(items[..n], normalize).Got?
    ensures NormalizeAll(items, normalize) == NormalizeAll(items[..n], normalize)
  {
    if n < |items| {
      assert items[..|items| - 1][..n] == items[..n];
      StoppedForGood(items[..|items| - 1], n, normalize);
    } else {
      assert items[..n] == items;
    }
  }

  lemma NothingToNormalize(normalize: Fields -> Normal<Json>)
    ensures NormalizeAll([], normalize) == Got([])
  {
  }

  /** One round of the adapters' loops. */
  lemma NormalizeStep(items: seq<Json>, i: nat, normalize: Fields -> Normal<Json>, done: seq<Json>)
    requires i < |items| && (forall j :: 0 <= j < |items| ==> items[j].Obj?)
      && NormalizeAll(items[..i], normalize) == Got(done)
    ensures match normalize(items[i].fields)
      case Got(value) => NormalizeAll(items[..i + 1], normalize) == Got(done + [value])
      case Unusable => NormalizeAll(items, normalize) == Unusable
      case Crash => NormalizeAll(items, normalize) == Crash
  {
    assert items[..i + 1][..i] == items[..i];
    if !normalize(items[i].fields).Got? { StoppedForGood(items, i + 1, normalize); }
  }

  lemma StringsValidate(s: string, source: string)
    ensures Validates(STRING_SCHEMA, Str(s)) && Validates(ConstSchema(source), Str(source))
  {
    EqualReflexive(Str(source), false);
    assert TypeHolds(Str("string"), Str(s));
    assert BoundsHold(STRING_SCHEMA.fields, Str(s)) && KeysHold(STRING_SCHEMA.fields, Str(s));
    assert BoundsHold(ConstSchema(source).fields, Str(source)) && KeysHold(ConstSchema(source).fields, Str(source));
  }

  // ----- Answers -----

  /** _error_result_from_response, for the statuses that are errors. */
  function ErrorOfStatus(status: int): (error: Option<AdapterResult>)
    ensures error.Some? ==> error.value.AdapterError?
  {
    if status < 400 then None
    else if status == 401 || status == 403 then Some(AdapterError("upstream_unauthorized", Some(status), false))
    else if status == 404 then Some(AdapterError("upstream_not_found", Some(status), false))
    else if status == 429 then Some(AdapterError("upstream_rate_limited", Some(status), true))
    else Some(AdapterError("upstream_error", Some(status), status >= 500))
  }

  /** An error answer is flagged retryable exactly when the retry loop would have sent again, and every
      status the loop retries is an error. */
  lemma RetryableErrorsAreTheRetriedOnes(status: int)
    ensures RetryableStatus(status) <==> ErrorOfStatus(status).Some? && ErrorOfStatus(status).value.retryable
    ensures ErrorOfStatus(status).Some? ==> ErrorOfStatus(status).value.upstreamStatus == Some(status)
  {
  }

  /** Every status from 400 on is an error, under one of four codes. */
  lemma ErrorCodes(status: int)
    ensures ErrorOfStatus(status).Some? <==> status >= 400
    ensures status >= 400 ==>
      var code := ErrorOfStatus(status).value.code;
      && (code == "upstream_unauthorized" <==> status in {401, 403})
      && (code == "upstream_not_found" <==> status == 404)
      && (code == "upstream_rate_limited" <==> status == 429)
      && (code == "upstream_error" <==> status !in {401, 403, 404, 429})
      && (ErrorOfStatus(status).value.retryable <==> status == 429 || status >= 500)
  {
    assert "upstream_error"[9] == 'e' && "upstream_unauthorized"[9] == 'u' && "upstream_not_found"[9] == 'n'
      && "upstream_rate_limited"[9] == 'r';
  }

  /** The part of invoke after the HTTP exchange. */
  function ResultOfAnswer(response: HttpResponse, maxBytes: nat, name: string,
                          normalize: Json -> Normal<seq<Json>>): AdapterResult {
    if ErrorOfStatus(response.status).Some? then ErrorOfStatus(response.status).value
    else if response.size > maxBytes then AdapterError("upstream_payload_too_large", Some(response.status), false)
    else if response.body.None? then AdapterError("upstream_invalid_response", Some(response.status), false)
    else
      match normalize(response.body.value)
      case Unusable => AdapterError("upstream_invalid_response", Some(response.status), false)
      case Crash => AdapterRaised
      case Got(items) => AdapterOk(Obj(map[name := Arr(items)]))
  }

  /** The result of invoke, given the outcome of its last send. */
  function ResultOfSend(outcome: SendOutcome, maxBytes: nat, name: string,
                        normalize: Json -> Normal<seq<Json>>): AdapterResult {
    match outcome
    case Answer(response) => ResultOfAnswer(response, maxBytes, name, normalize)
    case Timeout => AdapterError("upstream_timeout", None, true)
    case RequestError => AdapterError("upstream_error", None, true)
  }

  lemma UpstreamCodes()
    ensures IsErrorCode("upstream_unauthorized") && IsErrorCode("upstream_not_found")
      && IsErrorCode("upstream_rate_limited")
    ensures IsErrorCode("upstream_error") && IsErrorCode("upstream_timeout")
  {
  }

  lemma ResponseCodes()
    ensures IsErrorCode("upstream_payload_too_large") && IsErrorCode("upstream_invalid_response")
    ensures IsErrorCode("adapter_operation_unsupported") && IsErrorCode("secret_type_unsupported")
  {
  }

  /** An ok result wraps what the normaliser gave for the body of the last answer; an error has a code. */
  lemma ResultsOfSend(outcome: SendOutcome, maxBytes: nat, name: string, normalize: Json -> Normal<seq<Json>>)
    ensures var r := ResultOfSend(outcome, maxBytes, name, normalize);
      && (r.AdapterOk? <==>
           outcome.Answer? && outcome.response.body.Some? && normalize(outcome.response.body.value).Got?
           && outcome.response.status < 400 && outcome.response.size <= maxBytes)
      && (r.AdapterOk? ==> r.data == Obj(map[name := Arr(normalize(outcome.response.body.value).value)]))
      && (r.AdapterError? ==> IsErrorCode(r.code))
      && (outcome.Timeout? ==> r == AdapterError("upstream_timeout", None, true))
      && (outcome.RequestError? ==> r == AdapterError("upstream_error", None, true))
      && (outcome.Answer? && outcome.response.status >= 400 ==> Some(r) == ErrorOfStatus(outcome.response.status))
      && (outcome.Answer? && outcome.response.status < 400 && r.AdapterError? ==>
           && r.upstreamStatus == Some(outcome.response.status) && !r.retryable
           && r.code == if outcome.response.size > maxBytes then "upstream_payload_too_large"
              else "upstream_invalid_response")
      && (r.AdapterRaised? ==>
           outcome.Answer? && outcome.response.body.Some? && normalize(outcome.response.body.value).Crash?)
  {
    hide IsErrorCode;
    UpstreamCodes();
    ResponseCodes();
  }
}
