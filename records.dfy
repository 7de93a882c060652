/**
 * What one audit record decodes to, written as functions of the token stream and a cursor.
 * Each function says what the matching parse method of the serializer produces from cursor
 * `i` and where it leaves the cursor; the serializer's methods are proved against them.
 */
module Records {
  import opened Wrappers
  import opened JsonTokens

  /** A parsed unique identifier and a parsed UTC instant; their inner structure is abstract. */
  datatype Uuid = Uuid(bits: nat)
  datatype Date = Date(millis: int)

  /** The structure a run of field/value pairs is read into. */
  datatype Bag = Record | Identity | Context | Issuer | WebIdentity | Attributes | Resource

  /** A field's value as stored in a record or in one of its sub-structures. */
  datatype Value =
    | Null
    | Text(text: string)
    | Bool(flag: bool)
    | Time(date: Date)
    | Id(uuid: Uuid)
    | Object(bag: Bag, fields: map<string, Value>)
    | ResourceList(items: seq<map<string, Value>>)

  type FieldMap = map<string, Value>

  /** Why decoding stopped: each stands for an exception the decoder raises. */
  datatype Error =
    | NotJsonObject           // the file does not start with an object
    | NotCloudTrailLog        // the first field is not "Records", or its value is not an array
    | MissingFieldName        // input ends, or a token other than a name stands where a name is due
    | NotAnObject(bag: Bag)   // a sub-structure that must be an object is something else
    | NotResourceList         // "resources" is neither null nor an array
    | NotBoolean              // "readOnly" is neither null nor a boolean
    | BadEventVersion         // the version text is missing or not a number
    | BadUuid                 // an identifier is missing or malformed
    | BadDate(text: string)   // a timestamp the UTC format rejects (an I/O-class error)
    | UnclosedValue           // input ends inside a nested value

  /**
   * Where decoding stopped and why: the error and the cursor just after the last token the
   * decoder read before raising it, which is where the tokenizer stands when it is raised.
   */
  datatype Failure = Failure(error: Error, at: nat)

  /**
   * The library conversions the decoder calls: whether a text parses as a double, the
   * identifier parser and the UTC timestamp parser. None stands for the parse failing.
   */
  datatype Converters = Converters(
    isNumber: string -> bool,
    toUuid: string -> Option<Uuid>,
    toDate: string -> Option<Date>)

  /** A decoded value and the cursor after it. */
  datatype Parsed<T> = Parsed(value: T, next: nat)

  /** A conversion of the one token before cursor `at`: its outcome, located at `at`. */
  function After<T>(r: Result<T, Error>, at: nat): (s: Result<Parsed<T>, Failure>)
    ensures s.Ok? <==> r.Ok?
    ensures s.Ok? ==> s.value == Parsed(r.value, at)
    ensures s.Err? ==> s.error == Failure(r.error, at)
  {
    match r
    case Ok(v) => Ok(Parsed(v, at))
    case Err(e) => Err(Failure(e, at))
  }

  /** Start and end character offsets of one record in its file. */
  datatype DeliveryInfo = DeliveryInfo(charStart: nat, charEnd: nat)

  /** A decoded record with its delivery information. */
  datatype ClientRecord = ClientRecord(record: FieldMap, deliveryInfo: DeliveryInfo)

  const RecordsKey := "Records"

  /** The field registry: the names each structure decodes with a dedicated rule. */
  function KnownFields(bag: Bag): set<string>
  {
    match bag
    case Record => {"eventVersion", "userIdentity", "eventTime", "eventID", "requestID", "readOnly", "resources"}
    case Identity => {"type", "principalId", "arn", "accountId", "accessKeyId", "userName", "sessionContext", "invokedBy"}
    case Context => {"attributes", "sessionIssuer", "webIdFederationData"}
    case WebIdentity => {"attributes", "federatedProvider"}
    case Issuer => {"type", "principalId", "arn", "accountId", "userName"}
    case Resource => {}
    case Attributes => {}
  }

  /** The file header: an object, the field name "Records" and an array, from cursor `i`. */
  predicate IsHeader(toks: seq<Token>, i: nat)
  {
    && i + 3 <= |toks|
    && toks[i].kind == StartObject
    && toks[i + 1].text == RecordsKey
    && toks[i + 2].kind == StartArray
  }

  /**
   * The header check from cursor `i`: None when the header is there, otherwise the error
   * and the cursor just after the token that broke it.
   */
  function HeaderFailure(toks: seq<Token>, i: nat): (r: Option<Failure>)
    requires i <= |toks|
    ensures r.None? <==> IsHeader(toks, i)
    ensures r.Some? ==> i <= r.value.at <= |toks| && r.value.at <= i + 3
    ensures r.Some? ==> r.value.error == (if i < |toks| && toks[i].kind == StartObject then NotCloudTrailLog
                                          else NotJsonObject)
  {
    if !(i < |toks| && toks[i].kind == StartObject) then Some(Failure(NotJsonObject, Next(toks, i)))
    else if !(i + 1 < |toks| && toks[i + 1].text == RecordsKey) then Some(Failure(NotCloudTrailLog, Next(toks, i + 1)))
    else if !(i + 2 < |toks| && toks[i + 2].kind == StartArray) then Some(Failure(NotCloudTrailLog, Next(toks, i + 2)))
    else None
  }

  /** A string token's text; JSON null for any other token or for the end of input. */
  function TextValue(toks: seq<Token>, i: nat): (v: Value)
    ensures v.Null? || v.Text?
  {
    if i < |toks| && toks[i].kind == StringValue then Text(toks[i].text) else Null
  }

  /** A scalar token's string form: JSON null for null, structural tokens and no token. */
  function ValueAsString(t: Option<Token>): (v: Value)
    ensures v.Null? || v.Text?
  {
    if t.None? || t.value.kind == NullValue || IsOpen(t.value.kind) || IsClose(t.value.kind) then Null
    else Text(t.value.text)
  }

  /**
   * The pass-through rule: null stays null, a nested object or array is consumed whole and
   * kept as its text, any other token is kept as its string form.
   */
  function DefaultValue(toks: seq<Token>, i: nat): (r: Result<Parsed<Value>, Failure>)
    requires i <= |toks|
    ensures r.Ok? ==> i <= r.value.next <= |toks| && (r.value.value.Null? || r.value.value.Text?)
    ensures r.Err? ==> r.error == Failure(UnclosedValue, |toks|)
  {
    if i < |toks| && IsOpen(toks[i].kind) then
      match SubtreeEnd(toks, i + 1, 1)
      case None => Err(Failure(UnclosedValue, |toks|))
      case Some(j) => Ok(Parsed(Text(Render(toks[i..j])), j))
    else Ok(Parsed(ValueAsString(At(toks, i)), Next(toks, i)))
  }

  /** eventTime: a null text stays null; text the UTC format rejects is an error. */
  function ConvertToDate(conv: Converters, v: Value): (r: Result<Value, Error>)
    requires v.Null? || v.Text?
    ensures r.Ok? ==> r.value.Null? || r.value.Time?
  {
    if v.Null? then Ok(Null)
    else match conv.toDate(v.text)
      case None => Err(BadDate(v.text))
      case Some(d) => Ok(Time(d))
  }

  /** eventID and requestID: a missing or malformed identifier is an error. */
  function ConvertToUuid(conv: Converters, v: Value): (r: Result<Value, Error>)
    requires v.Null? || v.Text?
    ensures r.Ok? ==> r.value.Id?
  {
    if v.Null? then Err(BadUuid)
    else match conv.toUuid(v.text)
      case None => Err(BadUuid)
      case Some(u) => Ok(Id(u))
  }

  /** readOnly: null gives null, true and false give a flag, anything else is an error. */
  function ReadOnlyValue(toks: seq<Token>, i: nat): (r: Result<Parsed<Value>, Failure>)
    requires i <= |toks|
    ensures r.Ok? <==> i < |toks| && toks[i].kind in {NullValue, TrueValue, FalseValue}
    ensures r.Ok? ==> r.value.next == i + 1 && r.value.value == (if toks[i].kind == NullValue then Null
                                                                  else Bool(toks[i].kind == TrueValue))
    ensures r.Err? ==> r.error == Failure(NotBoolean, Next(toks, i))
  {
    if i < |toks| && toks[i].kind == NullValue then Ok(Parsed(Null, i + 1))
    else if i < |toks| && toks[i].kind == TrueValue then Ok(Parsed(Bool(true), i + 1))
    else if i < |toks| && toks[i].kind == FalseValue then Ok(Parsed(Bool(false), i + 1))
    else Err(Failure(NotBoolean, Next(toks, i)))
  }

  /** The value of field `key` of structure `bag`, read from cursor `i`: the case table. */
  function FieldValue(conv: Converters, bag: Bag, key: string, toks: seq<Token>, i: nat)
    : (r: Result<Parsed<Value>, Failure>)
    requires i <= |toks|
    ensures r.Ok? ==> i <= r.value.next <= |toks|
    ensures r.Err? ==> i <= r.error.at <= |toks|
    decreases |toks| - i, 3
  {
    match bag
    case Record =>
      if key == "eventVersion" then
        var v := TextValue(toks, i);
        if v.Text? && conv.isNumber(v.text) then Ok(Parsed(v, Next(toks, i)))
        else Err(Failure(BadEventVersion, Next(toks, i)))
      else if key == "userIdentity" then UserIdentityValue(conv, toks, i)
      else if key == "eventTime" then After(ConvertToDate(conv, TextValue(toks, i)), Next(toks, i))
      else if key == "eventID" || key == "requestID" then After(ConvertToUuid(conv, TextValue(toks, i)), Next(toks, i))
      else if key == "readOnly" then ReadOnlyValue(toks, i)
      else if key == "resources" then ResourcesValue(conv, toks, i)
      else DefaultValue(toks, i)
    case Identity =>
      if key == "sessionContext" then ObjectValue(conv, Context, toks, i)
      else if key in KnownFields(Identity) then Ok(Parsed(TextValue(toks, i), Next(toks, i)))
      else DefaultValue(toks, i)
    case Context =>
      if key == "attributes" then ObjectValue(conv, Attributes, toks, i)
      else if key == "sessionIssuer" then ObjectValue(conv, Issuer, toks, i)
      else if key == "webIdFederationData" then ObjectValue(conv, WebIdentity, toks, i)
      else DefaultValue(toks, i)
    case WebIdentity =>
      if key == "attributes" then ObjectValue(conv, Attributes, toks, i)
      else if key == "federatedProvider" then Ok(Parsed(TextValue(toks, i), Next(toks, i)))
      else DefaultValue(toks, i)
    case Issuer =>
      if key in KnownFields(Issuer) then Ok(Parsed(TextValue(toks, i), Next(toks, i)))
      else DefaultValue(toks, i)
    case Resource => DefaultValue(toks, i)
    case Attributes => Ok(Parsed(TextValue(toks, i), Next(toks, i)))
  }

  /** userIdentity: null gives null; otherwise it must be an identity object. */
  function UserIdentityValue(conv: Converters, toks: seq<Token>, i: nat): (r: Result<Parsed<Value>, Failure>)
    requires i <= |toks|
    ensures r.Ok? ==> i < r.value.next <= |toks|
    ensures r.Err? ==> i <= r.error.at <= |toks|
    decreases |toks| - i, 2
  {
    if i < |toks| && toks[i].kind == NullValue then Ok(Parsed(Null, i + 1))
    else ObjectValue(conv, Identity, toks, i)
  }

  /** resources: null gives null; otherwise it must be an array of resource objects. */
  function ResourcesValue(conv: Converters, toks: seq<Token>, i: nat): (r: Result<Parsed<Value>, Failure>)
    requires i <= |toks|
    ensures r.Ok? ==> i < r.value.next <= |toks|
    ensures r.Err? ==> i <= r.error.at <= |toks|
    decreases |toks| - i, 2
  {
    if i < |toks| && toks[i].kind == NullValue then Ok(Parsed(Null, i + 1))
    else if i < |toks| && toks[i].kind == StartArray then ResourceItems(conv, toks, i + 1, [])
    else Err(Failure(NotResourceList, Next(toks, i)))
  }

  /** A sub-structure that must be an object: its fields, or an error naming the structure. */
  function ObjectValue(conv: Converters, bag: Bag, toks: seq<Token>, i: nat): (r: Result<Parsed<Value>, Failure>)
    requires i <= |toks|
    ensures r.Ok? ==> i < r.value.next <= |toks| && r.value.value.Object? && r.value.value.bag == bag
    ensures r.Ok? ==> toks[i].kind == StartObject && toks[r.value.next - 1].kind == EndObject
    ensures r.Err? ==> i <= r.error.at <= |toks|
    decreases |toks| - i, 1
  {
    if i < |toks| && toks[i].kind == StartObject then
      var p :- Fields(conv, bag, toks, i + 1, map[]);
      Ok(Parsed(Object(bag, p.value), p.next))
    else Err(Failure(NotAnObject(bag), Next(toks, i)))
  }

  /**
   * The field loop of an object whose opening token has been read: field/value pairs are
   * added to `acc`, a later one replacing an earlier one of the same name, until an
   * object-end token in key position, which is the last token read. That token is not
   * necessarily the object's own: a text-typed field holding an object leaves that object's
   * closing token to this loop (see RecordBoundary).
   */
  function Fields(conv: Converters, bag: Bag, toks: seq<Token>, i: nat, acc: FieldMap)
    : (r: Result<Parsed<FieldMap>, Failure>)
    requires i <= |toks|
    ensures r.Ok? ==> i < r.value.next <= |toks| && toks[r.value.next - 1].kind == EndObject
    ensures r.Ok? ==> acc.Keys <= r.value.value.Keys
    ensures r.Ok? && toks[i].kind == FieldName ==> toks[i].text in r.value.value
    ensures r.Err? ==> i <= r.error.at <= |toks|
    decreases |toks| - i, 0
  {
    if i == |toks| then Err(Failure(MissingFieldName, i))
    else if toks[i].kind == EndObject then Ok(Parsed(acc, i + 1))
    else if toks[i].kind != FieldName then Err(Failure(MissingFieldName, i + 1))
    else
      var key := toks[i].text;
      var v :- FieldValue(conv, bag, key, toks, i + 1);
      Fields(conv, bag, toks, v.next, acc[key := v.value])
  }

  /**
   * The cursors at which the field loop started at `i` reads a name: the object's own keys,
   * as far as the loop gets. Names inside the values it reads are not among them.
   */
  function KeyCursors(conv: Converters, bag: Bag, toks: seq<Token>, i: nat): (ks: set<nat>)
    requires i <= |toks|
    ensures forall k :: k in ks ==> i <= k < |toks| && toks[k].kind == FieldName
    decreases |toks| - i
  {
    if i == |toks| || toks[i].kind != FieldName then {}
    else match FieldValue(conv, bag, toks[i].text, toks, i + 1)
      case Err(_) => {}
      case Ok(v) => {i} + KeyCursors(conv, bag, toks, v.next)
  }

  /**
   * The element loop of the resources array whose opening token has been read: one
   * resource per element, appended in array order, until the array's closing token.
   */
  function ResourceItems(conv: Converters, toks: seq<Token>, i: nat, acc: seq<FieldMap>)
    : (r: Result<Parsed<Value>, Failure>)
    requires i <= |toks|
    ensures r.Ok? ==> i < r.value.next <= |toks| && toks[r.value.next - 1].kind == EndArray
    ensures r.Ok? ==> r.value.value.ResourceList? && acc <= r.value.value.items
    ensures r.Err? ==> i <= r.error.at <= |toks|
    decreases |toks| - i, 0
  {
    if i < |toks| && toks[i].kind == EndArray then Ok(Parsed(ResourceList(acc), i + 1))
    else if i < |toks| && toks[i].kind == StartObject then
      var p :- Fields(conv, Resource, toks, i + 1, map[]);
      ResourceItems(conv, toks, p.next, acc + [p.value])
    else Err(Failure(NotAnObject(Resource), Next(toks, i)))
  }

  /** One field/value pair read: the loop continues after the value with the pair added. */
  lemma FieldStep(conv: Converters, bag: Bag, toks: seq<Token>, i: nat, acc: FieldMap, p: Parsed<Value>)
    requires i < |toks| && toks[i].kind == FieldName
    requires FieldValue(conv, bag, toks[i].text, toks, i + 1) == Ok(p)
    ensures p.next <= |toks|
    ensures Fields(conv, bag, toks, i, acc) == Fields(conv, bag, toks, p.next, acc[toks[i].text := p.value])
  {
  }

  /** One resource read: the element loop continues after it with the resource appended. */
  lemma ResourceItemStep(conv: Converters, toks: seq<Token>, i: nat, acc: seq<FieldMap>, p: Parsed<FieldMap>)
    requires i < |toks| && toks[i].kind == StartObject
    requires Fields(conv, Resource, toks, i + 1, map[]) == Ok(p)
    ensures p.next <= |toks|
    ensures ResourceItems(conv, toks, i, acc) == ResourceItems(conv, toks, p.next, acc + [p.value])
  {
  }

  /** The value under `key`, JSON null when the key is absent (the record classes' getters). */
  function Get(fields: FieldMap, key: string): Value
  {
    if key in fields then fields[key] else Null
  }

  /** The sub-structure under `key`, None when it is absent or null. */
  function Sub(fields: FieldMap, key: string): Option<FieldMap>
  {
    if key in fields && fields[key].Object? then Some(fields[key].fields) else None
  }

  /**
   * The top-level accountId: the identity's own one when it is not null, else the session
   * issuer's when the identity has a session context with an issuer, else nothing is added.
   * Every other field is left as it is.
   */
  function SetAccountId(rec: FieldMap): (r: FieldMap)
    ensures forall k :: k in rec && k != "accountId" ==> k in r && r[k] == rec[k]
    ensures forall k :: k in r ==> k in rec || k == "accountId"
    ensures Sub(rec, "userIdentity").None? ==> r == rec
    ensures Sub(rec, "userIdentity").Some? && !Get(Sub(rec, "userIdentity").value, "accountId").Null?
      ==> r == rec["accountId" := Get(Sub(rec, "userIdentity").value, "accountId")]
  {
    match Sub(rec, "userIdentity")
    case None => rec
    case Some(identity) =>
      if !Get(identity, "accountId").Null? then rec["accountId" := Get(identity, "accountId")]
      else match Sub(identity, "sessionContext")
        case None => rec
        case Some(context) =>
          match Sub(context, "sessionIssuer")
          case None => rec
          case Some(issuer) => rec["accountId" := Get(issuer, "accountId")]
  }

  /**
   * One record whose opening token has been read: its fields with the derived accountId,
   * the character offsets before and after it, and the cursor after its closing token.
   */
  function DecodeRecord(conv: Converters, toks: seq<Token>, i: nat): (r: Result<Parsed<ClientRecord>, Failure>)
    requires i <= |toks|
    ensures r.Ok? ==> i < r.value.next <= |toks| && toks[r.value.next - 1].kind == EndObject
    ensures r.Ok? ==> r.value.value.deliveryInfo == DeliveryInfo(Location(toks, i), Location(toks, r.value.next))
    ensures r.Err? ==> i <= r.error.at <= |toks|
  {
    var p :- Fields(conv, Record, toks, i, map[]);
    Ok(Parsed(ClientRecord(SetAccountId(p.value), DeliveryInfo(Location(toks, i), Location(toks, p.next))), p.next))
  }
}
