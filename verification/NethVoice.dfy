/** The NethVoice phonebook adapter (src/grantora/adapters/nethvoice.py). */
module NethVoice {
  import opened Prelude
  import opened Text
  import opened Json
  import opened Tables
  import opened JsonSchema
  import opened Retry
  import opened AdapterFields

  const CONTACT_KEYS := ["contacts", "results", "items"]

  /** _extract_contact_items */
  function ContactItems(payload: Json): Option<seq<Json>> {
    match payload
    case Arr(_) => Objects(payload)
    case Obj(fields) =>
      var direct := FirstPresent(fields, CONTACT_KEYS);
      if !direct.Null? then Objects(direct)
      else
        var data := Get(fields, "data");
        Objects(if data.Obj? then FirstPresent(data.fields, CONTACT_KEYS) else data)
    case _ => None
  }

  /** _display_name */
  function DisplayName(contact: Fields): Option<string> {
    var whole := FirstString(contact, ["display_name", "displayName", "full_name", "fullName", "fullname", "name"]);
    var first := FirstString(contact, ["first_name", "firstName", "given_name", "givenName"]);
    var last := FirstString(contact, ["last_name", "lastName", "family_name", "familyName"]);
    if whole.Some? then whole
    else if first.Some? && last.Some? then Some(first.value + " " + last.value)
    else OrElse(first, last)
  }

  /** _phone_from_sequence */
  function PhoneFromEntries(entries: seq<Json>): Option<string> {
    if entries == [] then None
    else
      var here := match entries[0]
        case Str(_) => NonBlank(entries[0])
        case Obj(fields) => FirstString(fields, ["number", "phone", "value"])
        case _ => None;
      if here.Some? then here else PhoneFromEntries(entries[1..])
  }

  function PhoneFromLists(contact: Fields, keys: seq<string>): Option<string> {
    if keys == [] then None
    else
      var value := Get(contact, keys[0]);
      var here := if value.Arr? then PhoneFromEntries(value.items) else None;
      if here.Some? then here else PhoneFromLists(contact, keys[1..])
  }

  /** _phone_number */
  function PhoneNumber(contact: Fields): Option<string> {
    OrElse(
      FirstString(contact,
        ["phone", "phone_number", "phoneNumber", "number", "mobile", "mobile_phone", "mobilePhone", "telephone",
        "extension"]),
      PhoneFromLists(contact, ["phones", "phone_numbers", "phoneNumbers", "numbers"]))
  }

  function Company(contact: Fields): string {
    match FirstString(contact, ["company", "company_name", "companyName", "organization", "organisation", "org"])
    case Some(company) => company
    case None => ""
  }

  /** _normalized_contact */
  function NormalizedContact(contact: Fields): Normal<Json> {
    var name, phone := DisplayName(contact), PhoneNumber(contact);
    if name.None? || phone.None? then Unusable
    else Got(Obj(map["display_name" := Str(name.value), "phone" := Str(phone.value),
                      "company" := Str(Company(contact)), "source" := Str("nethvoice")]))
  }

  function Contacts(payload: Json, limit: int): Normal<seq<Json>> {
    match ContactItems(payload)
    case None => Unusable
    case Some(items) => NormalizeAll(Take(items, limit), NormalizedContact)
  }

  /** _normalized_contacts */
  method NormalizedContacts(payload: Json, limit: int) returns (contacts: Normal<seq<Json>>)
    ensures contacts == Contacts(payload, limit)
  {
    hide NormalizedContact, ContactItems, NormalizeAll;
    var raw := ContactItems(payload);
    if raw.None? {
      return Unusable;
    }
    ContactItemsAreObjects(payload);
    var items := Take(raw.value, limit);
    var done: seq<Json> := [];
    NothingToNormalize(NormalizedContact);
    for i := 0 to |items|
      invariant NormalizeAll(items[..i], NormalizedContact) == Got(done)
    {
      NormalizeStep(items, i, NormalizedContact, done);
      var contact := NormalizedContact(items[i].fields);
      if !contact.Got? {
        ContactsNeverCrash(items[i].fields);
        return Unusable;
      }
      done := done + [contact.value];
    }
    assert items[..|items|] == items;
    return Got(done);
  }

  // ----- What a contact is made of -----

  ghost const WHOLE_NAMES := ["display_name", "displayName", "full_name", "fullName", "fullname", "name"]
  ghost const FIRST_NAMES := ["first_name", "firstName", "given_name", "givenName"]
  ghost const LAST_NAMES := ["last_name", "lastName", "family_name", "familyName"]
  ghost const COMPANIES := ["company", "company_name", "companyName", "organization", "organisation", "org"]
  ghost const PHONES := ["phone", "phone_number", "phoneNumber", "number", "mobile", "mobile_phone", "mobilePhone",
    "telephone", "extension"]
  ghost const PHONE_LISTS := ["phones", "phone_numbers", "phoneNumbers", "numbers"]

  /** A list entry that gives a phone: text, or an object with a number. */
  ghost predicate GivesPhone(entry: Json, phone: string) {
    || (entry.Str? && Strip(entry.s, IsSpace) == phone && phone != "")
    || (entry.Obj? && Picks(entry.fields, ["number", "phone", "value"], phone))
  }

  /** The phone of the first entry that gives one. */
  ghost predicate ListGives(list: Json, phone: string) {
    list.Arr? && exists i :: 0 <= i < |list.items| && GivesPhone(list.items[i], phone) && GiveNone(list.items[..i])
  }

  ghost predicate GiveNone(entries: seq<Json>) {
    forall entry, phone :: entry in entries ==> !GivesPhone(entry, phone)
  }

  lemma EntryGives(entry: Json)
    ensures PhoneFromEntries([entry]).Some? ==> GivesPhone(entry, PhoneFromEntries([entry]).value)
    ensures PhoneFromEntries([entry]).None? ==> forall phone :: !GivesPhone(entry, phone)
  {
    hide Strip, IsSpace, Picks, NoText, FirstString;
    if entry.Obj? { FirstStringIff(entry.fields, ["number", "phone", "value"]); NoneIsPicked(entry.fields); }
    assert PhoneFromEntries([]) == None;
  }

  lemma NoneIsPicked(fields: Fields)
    ensures FirstString(fields, ["number", "phone", "value"]).None? ==>
      forall phone :: !Picks(fields, ["number", "phone", "value"], phone)
  {
    hide Picks, NoText, FirstString;
    FirstStringIff(fields, ["number", "phone", "value"]);
  }

  lemma FirstEntryFirst(entries: seq<Json>)
    requires entries != []
    ensures PhoneFromEntries(entries) == OrElse(PhoneFromEntries([entries[0]]), PhoneFromEntries(entries[1..]))
  {
    hide NonBlank, FirstString;
    assert PhoneFromEntries([]) == None;
  }

  lemma {:induction false} EntriesGive(entries: seq<Json>)
    ensures PhoneFromEntries(entries).Some? ==> ListGives(Arr(entries), PhoneFromEntries(entries).value)
    ensures PhoneFromEntries(entries).None? ==> GiveNone(entries)
  {
    hide PhoneFromEntries, GivesPhone;
    if entries == [] {
      NoEntries();
    } else {
      var rest := entries[1..];
      EntriesGive(rest);
      FirstEntryFirst(entries);
      EntryGives(entries[0]);
      assert entries == [entries[0]] + rest && entries[..0] == [];
      if PhoneFromEntries([entries[0]]).None? && PhoneFromEntries(rest).Some? {
        var i :| 0 <= i < |rest| && GivesPhone(rest[i], PhoneFromEntries(rest).value) && GiveNone(rest[..i]);
        assert entries[i + 1] == rest[i] && entries[..i + 1] == [entries[0]] + rest[..i];
      }
    }
  }

  lemma NoEntries()
    ensures PhoneFromEntries([]) == None
  {
  }

  /** The phone of the first key whose value is a list that gives one. */
  ghost predicate ListsGive(contact: Fields, keys: seq<string>, phone: string) {
    exists i :: 0 <= i < |keys| && ListGives(Get(contact, keys[i]), phone)
      && forall j :: 0 <= j < i ==> PhonelessList(Get(contact, keys[j]))
  }

  ghost predicate PhonelessList(list: Json) {
    !list.Arr? || GiveNone(list.items)
  }

  lemma {:induction false} PhoneListsGive(contact: Fields, keys: seq<string>)
    ensures PhoneFromLists(contact, keys).Some? ==> ListsGive(contact, keys, PhoneFromLists(contact, keys).value)
  {
    hide ListGives, GiveNone, PhoneFromEntries;
    if keys != [] {
      var rest := keys[1..];
      PhoneListsGive(contact, rest);
      var list := Get(contact, keys[0]);
      if list.Arr? { EntriesGive(list.items); }
      if PhoneFromLists(contact, keys).Some? && !(list.Arr? && PhoneFromEntries(list.items).Some?) {
        var phone := PhoneFromLists(contact, rest).value;
        var i :| 0 <= i < |rest| && ListGives(Get(contact, rest[i]), phone)
          && forall j :: 0 <= j < i ==> PhonelessList(Get(contact, rest[j]));
        assert keys[i + 1] == rest[i] && forall j :: 0 < j < i + 1 ==> keys[j] == rest[j - 1];
      }
    }
  }

  /** The fields of a normalised contact, told from the payload: the whole name if there is one, else first and
      last name in that order with a space between, else the one there is; a phone of its own, else the first
      of a list; the company, else none. */
  lemma ContactTells(contact: Fields)
    requires NormalizedContact(contact).Got?
    ensures NormalizedContact(contact).value.Obj?
    ensures var m := NormalizedContact(contact).value.fields;
      && m.Keys == {"display_name", "phone", "company", "source"} && m["source"] == Str("nethvoice")
      && m["display_name"].Str? && m["phone"].Str?
      && (!NoText(contact, WHOLE_NAMES) ==> Picks(contact, WHOLE_NAMES, m["display_name"].s))
      && (NoText(contact, WHOLE_NAMES) && NoText(contact, LAST_NAMES) ==>
            Picks(contact, FIRST_NAMES, m["display_name"].s))
      && (NoText(contact, WHOLE_NAMES) && NoText(contact, FIRST_NAMES) ==>
            Picks(contact, LAST_NAMES, m["display_name"].s))
      && (NoText(contact, WHOLE_NAMES) ==>
            forall first, last :: Picks(contact, FIRST_NAMES, first) && Picks(contact, LAST_NAMES, last) ==>
              m["display_name"] == Str(first + " " + last))
      && (if NoText(contact, PHONES) then ListsGive(contact, PHONE_LISTS, m["phone"].s)
          else Picks(contact, PHONES, m["phone"].s))
      && (if NoText(contact, COMPANIES) then m["company"] == Str("")
          else m["company"].Str? && Picks(contact, COMPANIES, m["company"].s))
  {
    hide Picks, NoText, FirstString, ListsGive, PhoneFromLists;
    FirstStringIff(contact, WHOLE_NAMES);
    FirstStringIff(contact, FIRST_NAMES);
    FirstStringIff(contact, LAST_NAMES);
    FirstStringIff(contact, PHONES);
    FirstStringIff(contact, COMPANIES);
    PhoneListsGive(contact, PHONE_LISTS);
  }

  ghost const LISTS := ["contacts", "results", "items"]

  /** Contacts are read from the payload itself, from the first of the three keys in it or, where that gives null,
      from its data in the same ways. */
  lemma ContactItemsTell(payload: Json)
    requires ContactItems(payload).Some?
    ensures var list := Arr(ContactItems(payload).value);
      || payload == list
      || (payload.Obj? && Holds(payload.fields, LISTS, list))
      || (payload.Obj? && (forall value :: Holds(payload.fields, LISTS, value) ==> value.Null?)
           && var data := Get(payload.fields, "data");
              data == list || (data.Obj? && Holds(data.fields, LISTS, list)))
  {
    hide Holds, FirstPresent;
    if payload.Obj? {
      FirstPresentIff(payload.fields, LISTS);
      var data := Get(payload.fields, "data");
      if data.Obj? { FirstPresentIff(data.fields, LISTS); }
    }
  }

  lemma ContactItemsAreObjects(payload: Json)
    ensures ContactItems(payload).Some? ==> forall i :: 0 <= i < |ContactItems(payload).value| ==>
      ContactItems(payload).value[i].Obj?
  {
  }

  lemma ContactIsValid(contact: Fields)
    requires NormalizedContact(contact).Got?
    ensures Validates(CONTACT_SCHEMA, NormalizedContact(contact).value)
  {
    hide DisplayName, PhoneNumber, Company, Validates;
    var properties: Fields :=
      map["display_name" := STRING_SCHEMA, "phone" := STRING_SCHEMA, "company" := STRING_SCHEMA,
        "source" := ConstSchema("nethvoice")];
    var required := ["display_name", "phone", "company", "source"];
    assert CONTACT_SCHEMA == ClosedObject(properties, required);
    var m := NormalizedContact(contact).value.fields;
    ClosedObjectValidatesIff(properties, required, m);
    StringsValidate(m["display_name"].s, "nethvoice");
    StringsValidate(m["phone"].s, "nethvoice");
    StringsValidate(m["company"].s, "nethvoice");
    assert m.Keys == properties.Keys;
  }

  ghost predicate Normalizable(items: seq<Json>) {
    forall i :: 0 <= i < |items| ==> items[i].Obj? && NormalizedContact(items[i].fields).Got?
  }

  lemma ContactsNeverCrash(contact: Fields)
    ensures !NormalizedContact(contact).Crash?
  {
  }

  /** Whatever the payload and limit, an answer has one contact for each of the first `limit` items and
      validates against the template's output schema; there is no answer exactly when no list of objects
      is found or one of these items lacks a name or a phone. */
  lemma ContactsConform(payload: Json, limit: int)
    ensures var r := Contacts(payload, limit);
      && (r.Got? <==> ContactItems(payload).Some? && Normalizable(Take(ContactItems(payload).value, limit)))
      && (r.Got? ==> |r.value| == |Take(ContactItems(payload).value, limit)|)
      && (r.Got? ==> Validates(NETHVOICE_OUTPUT_SCHEMA, Obj(map["contacts" := Arr(r.value)])))
      && !r.Crash?
  {
    hide ContactItems, NormalizedContact, Validates;
    var r := Contacts(payload, limit);
    ContactItemsAreObjects(payload);
    if ContactItems(payload).Some? && !r.Got? {
      var items := Take(ContactItems(payload).value, limit);
      var i := FirstStop(items, NormalizedContact);
      ContactsNeverCrash(items[i].fields);
    }
    if r.Got? {
      var items := Take(ContactItems(payload).value, limit);
      forall i | 0 <= i < |r.value| ensures Validates(CONTACT_SCHEMA, r.value[i]) {
        ContactIsValid(items[i].fields);
      }
      ListValidatesIff("contacts", CONTACT_SCHEMA, r.value);
    }
  }

  // ----- Normalising twice -----

  lemma JoinedIsTrimmed(first: string, last: string)
    requires first != "" && last != "" && Stripped(first, IsSpace) && Stripped(last, IsSpace)
    ensures Stripped(first + " " + last, IsSpace)
  {
  }

  lemma {:induction false} EntryIsTrimmed(entries: seq<Json>)
    ensures PhoneFromEntries(entries).Some? ==>
      PhoneFromEntries(entries).value != "" && Stripped(PhoneFromEntries(entries).value, IsSpace)
  {
    hide Strip, Stripped, IsSpace, FirstString;
    if entries != [] {
      EntryIsTrimmed(entries[1..]);
      if entries[0].Str? { var _, _ := StripCorrect(entries[0].s, IsSpace); }
      if entries[0].Obj? { PickedIsTrimmed(entries[0].fields, ["number", "phone", "value"]); }
    }
  }

  lemma {:induction false} ListedPhoneIsTrimmed(contact: Fields, keys: seq<string>)
    ensures PhoneFromLists(contact, keys).Some? ==>
      PhoneFromLists(contact, keys).value != "" && Stripped(PhoneFromLists(contact, keys).value, IsSpace)
  {
    hide Stripped, IsSpace, PhoneFromEntries;
    if keys != [] {
      ListedPhoneIsTrimmed(contact, keys[1..]);
      var value := Get(contact, keys[0]);
      if value.Arr? { EntryIsTrimmed(value.items); }
    }
  }

  lemma NamesAreTrimmed(contact: Fields)
    ensures DisplayName(contact).Some? ==>
      DisplayName(contact).value != "" && Stripped(DisplayName(contact).value, IsSpace)
    ensures PhoneNumber(contact).Some? ==>
      PhoneNumber(contact).value != "" && Stripped(PhoneNumber(contact).value, IsSpace)
    ensures Stripped(Company(contact), IsSpace)
  {
    hide IsSpace, FirstString, PhoneFromLists;
    var firstKeys, lastKeys := ["first_name", "firstName", "given_name", "givenName"],
      ["last_name", "lastName", "family_name", "familyName"];
    PickedIsTrimmed(contact, ["display_name", "displayName", "full_name", "fullName", "fullname", "name"]);
    PickedIsTrimmed(contact, firstKeys);
    PickedIsTrimmed(contact, lastKeys);
    var first, last := FirstString(contact, firstKeys), FirstString(contact, lastKeys);
    if first.Some? && last.Some? { JoinedIsTrimmed(first.value, last.value); }
    PickedIsTrimmed(contact,
      ["phone", "phone_number", "phoneNumber", "number", "mobile", "mobile_phone", "mobilePhone", "telephone",
      "extension"]);
    ListedPhoneIsTrimmed(contact, ["phones", "phone_numbers", "phoneNumbers", "numbers"]);
    PickedIsTrimmed(contact, ["company", "company_name", "companyName", "organization", "organisation", "org"]);
  }

  /** A normalised contact is its own normal form. */
  lemma ContactIsNormal(contact: Fields)
    requires NormalizedContact(contact).Got?
    ensures NormalizedContact(NormalizedContact(contact).value.fields) == NormalizedContact(contact)
  {
    hide IsSpace, Stripped, FirstString, PhoneFromLists;
    NamesAreTrimmed(contact);
    var m := NormalizedContact(contact).value.fields;
    NormalFieldsStay(m, m["display_name"].s, m["phone"].s, m["company"].s);
  }

  lemma NormalFieldsStay(m: Fields, name: string, phone: string, company: string)
    requires m
      == map["display_name" := Str(name), "phone" := Str(phone), "company" := Str(company),
      "source" := Str("nethvoice")]
    requires name != "" && Stripped(name, IsSpace) && phone != "" && Stripped(phone, IsSpace)
      && Stripped(company, IsSpace)
    ensures DisplayName(m) == Some(name) && PhoneNumber(m) == Some(phone) && Company(m) == company
  {
    hide IsSpace, Stripped, FirstString, PhoneFromLists;
    FirstKeyIsPicked(m, ["display_name", "displayName", "full_name", "fullName", "fullname", "name"], name);
    FirstKeyIsPicked(m,
      ["phone", "phone_number", "phoneNumber", "number", "mobile", "mobile_phone", "mobilePhone", "telephone",
      "extension"], phone);
    var companyKeys := ["company", "company_name", "companyName", "organization", "organisation", "org"];
    if company != "" { FirstKeyIsPicked(m, companyKeys, company); } else { NoKeyPresent(m, companyKeys); }
  }

  /** The adapter reads its own answers back: normalising {"contacts": answer} with the same limit gives the
      answer again. */
  lemma AnswerIsNormal(payload: Json, limit: int)
    requires limit >= 0 && Contacts(payload, limit).Got?
    ensures var answer := Contacts(payload, limit).value;
      Contacts(Obj(map["contacts" := Arr(answer)]), limit) == Got(answer)
  {
    hide ContactItems, NormalizedContact;
    ContactItemsAreObjects(payload);
    var items := Take(ContactItems(payload).value, limit);
    var answer := Contacts(payload, limit).value;
    forall i | 0 <= i < |answer| ensures answer[i].Obj? && NormalizedContact(answer[i].fields) == Got(answer[i]) {
      NormalIsObject(items[i].fields);
      ContactIsNormal(items[i].fields);
    }
    OwnAnswerIsRead(answer);
    var again := NormalizeAll(answer, NormalizedContact);
    assert again.Got? && again.value == answer;
  }

  lemma NormalIsObject(contact: Fields)
    ensures NormalizedContact(contact).Got? ==> NormalizedContact(contact).value.Obj?
  {
  }

  lemma OwnAnswerIsRead(answer: seq<Json>)
    requires forall i :: 0 <= i < |answer| ==> answer[i].Obj?
    ensures ContactItems(Obj(map["contacts" := Arr(answer)])) == Some(answer)
  {
  }

  /** Which secrets _auth_headers can use. */
  predicate UsableSecret(secretType: string) {
    secretType == "bearer_token" || secretType == "api_key"
  }

  /** What invoke makes of the outcome of its last send. */
  function SendResult(outcome: SendOutcome, maxBytes: nat, limit: int): AdapterResult {
    ResultOfSend(outcome, maxBytes, "contacts", (payload: Json) => Contacts(payload, limit))
  }

  lemma SendResultConforms(outcome: SendOutcome, maxBytes: nat, limit: int)
    requires limit >= 0
    ensures var r := SendResult(outcome, maxBytes, limit);
      && (r.AdapterOk? ==> Validates(NETHVOICE_OUTPUT_SCHEMA, r.data) && AtMost(r.data, "contacts", limit))
      && (r.AdapterOk? <==>
            && outcome.Answer? && outcome.response.status < 400 && outcome.response.size <= maxBytes
            && outcome.response.body.Some? && Contacts(outcome.response.body.value, limit).Got?)
      && (r.AdapterOk? ==> r.data == Obj(map["contacts" := Arr(Contacts(outcome.response.body.value, limit).value)]))
      && (r.AdapterError? ==> IsErrorCode(r.code))
      && !r.AdapterRaised?
  {
    hide Contacts, ContactItems, Validates, ResultOfSend, IsErrorCode;
    ResultsOfSend(outcome, maxBytes, "contacts", (payload: Json) => Contacts(payload, limit));
    if outcome.Answer? && outcome.response.body.Some? { ContactsConform(outcome.response.body.value, limit); }
  }

  /** What invoke comes to, against a stream of outcomes. */
  function InvokeResult(capability: Capability, input: Fields, baseUrl: Option<string>, secretType: string,
                        readOnlyAttempts: int, maxBytes: nat, outcomes: nat -> SendOutcome): AdapterResult
    requires capability.inputSchema.Obj?
  {
    if capability.operation != "phonebook.search" then AdapterError("adapter_operation_unsupported", None, false)
    else if baseUrl.None? then AdapterError("upstream_not_found", None, false)
    else if !UsableSecret(secretType) then AdapterError("secret_type_unsupported", None, false)
    else
      var limit := RequestedLimit(input, capability.inputSchema.fields);
      SendResult(LastOutcome(capability.risk, readOnlyAttempts, outcomes), maxBytes, limit)
  }

  /** An ok result validates against the template and holds no more contacts than were asked for; an error
      has a code, and invoke never raises. */
  lemma InvokeConforms(capability: Capability, input: Fields, baseUrl: Option<string>, secretType: string,
                       readOnlyAttempts: int, maxBytes: nat, outcomes: nat -> SendOutcome)
    requires capability.inputSchema.Obj?
    ensures var r := InvokeResult(capability, input, baseUrl, secretType, readOnlyAttempts, maxBytes, outcomes);
      && (r.AdapterOk? ==> Validates(NETHVOICE_OUTPUT_SCHEMA, r.data))
      && (capability.operation != "phonebook.search" ==>
           r == AdapterError("adapter_operation_unsupported", None, false))
      && (capability.operation == "phonebook.search" && baseUrl.None? ==>
           r == AdapterError("upstream_not_found", None, false))
      && (capability.operation == "phonebook.search" && baseUrl.Some? && secretType !in {"bearer_token", "api_key"} ==>
           r == AdapterError("secret_type_unsupported", None, false))
      && (capability.operation == "phonebook.search" && baseUrl.Some? && secretType in {"bearer_token", "api_key"} ==>
            var last, limit := LastOutcome(capability.risk, readOnlyAttempts, outcomes),
              RequestedLimit(input, capability.inputSchema.fields);
            && (r.AdapterOk? <==>
                  && last.Answer? && last.response.status < 400 && last.response.size <= maxBytes
                  && last.response.body.Some? && Contacts(last.response.body.value, limit).Got?)
            && (r.AdapterOk? ==>
                  r.data == Obj(map["contacts" := Arr(Contacts(last.response.body.value, limit).value)])))
      && (r.AdapterOk? ==> AtMost(r.data, "contacts", RequestedLimit(input, capability.inputSchema.fields)))
      && (r.AdapterError? ==> IsErrorCode(r.code))
      && !r.AdapterRaised?
  {
    hide IsErrorCode, SendResult, LastOutcome, Validates, RequestedLimit, AtMost;
    UpstreamCodes();
    ResponseCodes();
    var last := LastOutcome(capability.risk, readOnlyAttempts, outcomes);
    SendResultConforms(last, maxBytes, RequestedLimit(input, capability.inputSchema.fields));
  }

  /** invoke: nothing is sent for an unsupported call, and never more than the allowed attempts. */
  method Invoke(capability: Capability, input: Fields, baseUrl: Option<string>, secretType: string,
                readOnlyAttempts: int, maxBytes: nat, outcomes: nat -> SendOutcome)
    returns (result: AdapterResult, sent: nat)
    requires capability.inputSchema.Obj?
    ensures result == InvokeResult(capability, input, baseUrl, secretType, readOnlyAttempts, maxBytes, outcomes)
    ensures sent > 0 <==> capability.operation == "phonebook.search" && baseUrl.Some? && UsableSecret(secretType)
    ensures sent <= Attempts(capability.risk, readOnlyAttempts)
    ensures result.AdapterOk? ==> sent > 0 && Validates(NETHVOICE_OUTPUT_SCHEMA, result.data)
  {
    hide Contacts, Validates, RequestedLimit, Retryable, Sends;
    InvokeConforms(capability, input, baseUrl, secretType, readOnlyAttempts, maxBytes, outcomes);
    sent := 0;
    if capability.operation != "phonebook.search" {
      return AdapterError("adapter_operation_unsupported", None, false), 0;
    }
    if baseUrl.None? {
      return AdapterError("upstream_not_found", None, false), 0;
    }
    if !UsableSecret(secretType) {
      return AdapterError("secret_type_unsupported", None, false), 0;
    }
    var limit := RequestedLimit(input, capability.inputSchema.fields);
    var response, error;
    response, error, sent := SendWithReadOnlyRetries(capability.risk, readOnlyAttempts, outcomes);
    if error.Some? {
      return error.value, sent;
    }
    var answer := response.value;
    if ErrorOfStatus(answer.status).Some? {
      return ErrorOfStatus(answer.status).value, sent;
    }
    if answer.size > maxBytes {
      return AdapterError("upstream_payload_too_large", Some(answer.status), false), sent;
    }
    if answer.body.None? {
      return AdapterError("upstream_invalid_response", Some(answer.status), false), sent;
    }
    var contacts := NormalizedContacts(answer.body.value, limit);
    if !contacts.Got? {
      ContactsConform(answer.body.value, limit);
      return AdapterError("upstream_invalid_response", Some(answer.status), false), sent;
    }
    return AdapterOk(Obj(map["contacts" := Arr(contacts.value)])), sent;
  }
}
