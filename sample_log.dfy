/**
 * A complete one-record log file, decoded first by the specification functions and then
 * by driving the streaming decoder the way a caller does: header, record, end of array.
 */
module SampleLog {
  import opened Wrappers
  import opened JsonTokens
  import opened Records
  import opened Serializer

  const EventTime := "2014-01-01T00:00:00Z"
  const EventId := "11111111-1111-1111-1111-111111111111"
  const AccountId := "123456789012"

  /**
   * The tokens of
   * {"Records":[{"eventVersion":"1.02","eventTime":"2014-01-01T00:00:00Z",
   *   "eventID":"11111111-1111-1111-1111-111111111111",
   *   "userIdentity":{"type":"IAMUser","accountId":"123456789012"},
   *   "readOnly":true,"resources":null}]}
   * each with the character offset just after it.
   */
  function Tokens(): seq<Token>
  {
    [ Token(StartObject, "{", 1), Token(FieldName, "Records", 10), Token(StartArray, "[", 12),
      Token(StartObject, "{", 13),
      Token(FieldName, "eventVersion", 27), Token(StringValue, "1.02", 34),
      Token(FieldName, "eventTime", 46), Token(StringValue, EventTime, 69),
      Token(FieldName, "eventID", 79), Token(StringValue, EventId, 118),
      Token(FieldName, "userIdentity", 133), Token(StartObject, "{", 135),
      Token(FieldName, "type", 141), Token(StringValue, "IAMUser", 151),
      Token(FieldName, "accountId", 163), Token(StringValue, AccountId, 178),
      Token(EndObject, "}", 179),
      Token(FieldName, "readOnly", 190), Token(TrueValue, "true", 195),
      Token(FieldName, "resources", 207), Token(NullValue, "null", 212),
      Token(EndObject, "}", 213), Token(EndArray, "]", 214), Token(EndObject, "}", 215) ]
  }

  /** The converters accept the sample's version, timestamp and identifier. */
  predicate Accepts(conv: Converters)
  {
    conv.isNumber("1.02") && conv.toDate(EventTime).Some? && conv.toUuid(EventId).Some?
  }

  function IdentityFields(): FieldMap
  {
    map["type" := Text("IAMUser"), "accountId" := Text(AccountId)]
  }

  /** The decoded record: the file's fields plus the accountId taken from the identity. */
  function Expected(conv: Converters): FieldMap
    requires Accepts(conv)
  {
    map["eventVersion" := Text("1.02"),
        "eventTime" := Time(conv.toDate(EventTime).value),
        "eventID" := Id(conv.toUuid(EventId).value),
        "userIdentity" := Object(Identity, IdentityFields()),
        "readOnly" := Bool(true),
        "resources" := Null,
        "accountId" := Text(AccountId)]
  }

  /** The record's fields as they are read, before the accountId is derived. */
  function ReadFields(conv: Converters): FieldMap
    requires Accepts(conv)
  {
    map["eventVersion" := Text("1.02"),
        "eventTime" := Time(conv.toDate(EventTime).value),
        "eventID" := Id(conv.toUuid(EventId).value),
        "userIdentity" := Object(Identity, IdentityFields()),
        "readOnly" := Bool(true),
        "resources" := Null]
  }

  /** Token `i` has the given kind and text. */
  predicate Has(toks: seq<Token>, i: nat, kind: Kind, text: string)
  {
    i < |toks| && toks[i].kind == kind && toks[i].text == text
  }

  /** What the decoder sees of the sample, offsets aside: every token's kind and text. */
  predicate Shaped(toks: seq<Token>)
  {
    |toks| == 24 && FrameShaped(toks) && ScalarsShaped(toks) && IdentityShaped(toks) && FlagsShaped(toks)
  }

  /** The header, the record's braces and the end of the array and file. */
  predicate FrameShaped(toks: seq<Token>)
  {
    && Has(toks, 0, StartObject, "{") && Has(toks, 1, FieldName, "Records") && Has(toks, 2, StartArray, "[")
    && Has(toks, 3, StartObject, "{")
    && Has(toks, 21, EndObject, "}") && Has(toks, 22, EndArray, "]") && Has(toks, 23, EndObject, "}")
  }

  predicate ScalarsShaped(toks: seq<Token>)
  {
    && Has(toks, 4, FieldName, "eventVersion") && Has(toks, 5, StringValue, "1.02")
    && Has(toks, 6, FieldName, "eventTime") && Has(toks, 7, StringValue, EventTime)
    && Has(toks, 8, FieldName, "eventID") && Has(toks, 9, StringValue, EventId)
  }

  predicate IdentityShaped(toks: seq<Token>)
  {
    && Has(toks, 10, FieldName, "userIdentity") && Has(toks, 11, StartObject, "{")
    && Has(toks, 12, FieldName, "type") && Has(toks, 13, StringValue, "IAMUser")
    && Has(toks, 14, FieldName, "accountId") && Has(toks, 15, StringValue, AccountId)
    && Has(toks, 16, EndObject, "}")
  }

  predicate FlagsShaped(toks: seq<Token>)
  {
    && Has(toks, 17, FieldName, "readOnly") && Has(toks, 18, TrueValue, "true")
    && Has(toks, 19, FieldName, "resources") && Has(toks, 20, NullValue, "null")
  }

  /** The sample's tokens have the sample's shape. */
  lemma TokensShaped()
    ensures Shaped(Tokens())
  {
    FrameOfTokens();
    ScalarsOfTokens();
    IdentityOfTokens();
    FlagsOfTokens();
  }

  lemma FrameOfTokens() ensures FrameShaped(Tokens()) {}
  lemma ScalarsOfTokens() ensures ScalarsShaped(Tokens()) {}
  lemma IdentityOfTokens() ensures IdentityShaped(Tokens()) {}
  lemma FlagsOfTokens() ensures FlagsShaped(Tokens()) {}

  /** A record is its fields with the derived accountId, bracketed by the offsets around it. */
  lemma RecordFromFields(conv: Converters, toks: seq<Token>, i: nat, p: Parsed<FieldMap>)
    requires i <= |toks|
    requires Fields(conv, Record, toks, i, map[]) == Ok(p)
    ensures p.next <= |toks|
    ensures DecodeRecord(conv, toks, i)
         == Ok(Parsed(ClientRecord(SetAccountId(p.value), DeliveryInfo(Location(toks, i), Location(toks, p.next))), p.next))
  {
  }

  /** The file opens with the record-array header. */
  lemma SampleHeader(toks: seq<Token>)
    requires Shaped(toks)
    ensures IsHeader(toks, 0)
  {
  }

  /** The nested identity's fields: its two texts, ending at its closing brace. */
  lemma SampleIdentityFields(conv: Converters, toks: seq<Token>)
    requires Shaped(toks)
    ensures Fields(conv, Identity, toks, 12, map[]) == Ok(Parsed(IdentityFields(), 17))
  {
    var typed := map["type" := Text("IAMUser")];
    assert FieldValue(conv, Identity, "type", toks, 13) == Ok(Parsed(Text("IAMUser"), 14));
    assert Fields(conv, Identity, toks, 12, map[]) == Fields(conv, Identity, toks, 14, typed);
    assert FieldValue(conv, Identity, "accountId", toks, 15) == Ok(Parsed(Text(AccountId), 16));
    assert Fields(conv, Identity, toks, 14, typed) == Fields(conv, Identity, toks, 16, typed["accountId" := Text(AccountId)]);
    assert typed["accountId" := Text(AccountId)] == IdentityFields();
  }

  /** The identity object as the record's userIdentity value. */
  lemma SampleIdentityDecodes(conv: Converters, toks: seq<Token>)
    requires Shaped(toks)
    ensures UserIdentityValue(conv, toks, 11) == Ok(Parsed(Object(Identity, IdentityFields()), 17))
  {
    SampleIdentityFields(conv, toks);
    assert ObjectValue(conv, Identity, toks, 11) == Ok(Parsed(Object(Identity, IdentityFields()), 17));
  }

  /** The version is kept as its text. */
  lemma SampleVersionDecodes(conv: Converters, toks: seq<Token>)
    requires Shaped(toks) && Accepts(conv)
    ensures Fields(conv, Record, toks, 4, map[]) == Fields(conv, Record, toks, 6, map["eventVersion" := Text("1.02")])
  {
    FieldStep(conv, Record, toks, 4, map[], Parsed(Text("1.02"), 6));
  }

  /** The timestamp is the converter's date. */
  lemma SampleTimeDecodes(conv: Converters, toks: seq<Token>, acc: FieldMap)
    requires Shaped(toks) && Accepts(conv)
    ensures Fields(conv, Record, toks, 6, acc)
         == Fields(conv, Record, toks, 8, acc["eventTime" := Time(conv.toDate(EventTime).value)])
  {
    FieldStep(conv, Record, toks, 6, acc, Parsed(Time(conv.toDate(EventTime).value), 8));
  }

  /** The event identifier is the converter's identifier. */
  lemma SampleIdDecodes(conv: Converters, toks: seq<Token>, acc: FieldMap)
    requires Shaped(toks) && Accepts(conv)
    ensures Fields(conv, Record, toks, 8, acc)
         == Fields(conv, Record, toks, 10, acc["eventID" := Id(conv.toUuid(EventId).value)])
  {
    FieldStep(conv, Record, toks, 8, acc, Parsed(Id(conv.toUuid(EventId).value), 10));
  }

  /** The identity object is stored whole under userIdentity. */
  lemma SampleUserIdentityStored(conv: Converters, toks: seq<Token>, acc: FieldMap)
    requires Shaped(toks)
    ensures Fields(conv, Record, toks, 10, acc)
         == Fields(conv, Record, toks, 17, acc["userIdentity" := Object(Identity, IdentityFields())])
  {
    SampleIdentityDecodes(conv, toks);
    assert FieldValue(conv, Record, "userIdentity", toks, 11) == UserIdentityValue(conv, toks, 11);
    FieldStep(conv, Record, toks, 10, acc, Parsed(Object(Identity, IdentityFields()), 17));
  }

  /** readOnly true becomes the flag, resources null stays null, and the record closes. */
  lemma SampleFlagsDecode(conv: Converters, toks: seq<Token>, acc: FieldMap)
    requires Shaped(toks)
    ensures Fields(conv, Record, toks, 17, acc) == Ok(Parsed(acc["readOnly" := Bool(true)]["resources" := Null], 22))
  {
    var flagged := acc["readOnly" := Bool(true)];
    FieldStep(conv, Record, toks, 17, acc, Parsed(Bool(true), 19));
    FieldStep(conv, Record, toks, 19, flagged, Parsed(Null, 21));
    assert Fields(conv, Record, toks, 21, flagged["resources" := Null]) == Ok(Parsed(flagged["resources" := Null], 22));
  }

  /** All six fields, in file order. */
  lemma SampleFieldsDecode(conv: Converters, toks: seq<Token>)
    requires Shaped(toks) && Accepts(conv)
    ensures Fields(conv, Record, toks, 4, map[]) == Ok(Parsed(ReadFields(conv), 22))
  {
    var d := Time(conv.toDate(EventTime).value);
    var u := Id(conv.toUuid(EventId).value);
    var m1 := map["eventVersion" := Text("1.02")];
    var m3 := m1["eventTime" := d]["eventID" := u];
    var m4 := m3["userIdentity" := Object(Identity, IdentityFields())];
    SampleVersionDecodes(conv, toks);
    SampleTimeDecodes(conv, toks, m1);
    SampleIdDecodes(conv, toks, m1["eventTime" := d]);
    SampleUserIdentityStored(conv, toks, m3);
    SampleFlagsDecode(conv, toks, m4);
    assert m4["readOnly" := Bool(true)]["resources" := Null] == ReadFields(conv);
  }

  /** The record starts after character 13 and ends after character 213. */
  lemma SampleOffsets()
    ensures Location(Tokens(), 4) == 13 && Location(Tokens(), 22) == 213
  {
  }

  /** The accountId comes from the identity, the other fields stay as read. */
  lemma SampleAccountIdDerived(conv: Converters)
    requires Accepts(conv)
    ensures SetAccountId(ReadFields(conv)) == Expected(conv)
  {
    var rec := ReadFields(conv);
    assert Sub(rec, "userIdentity") == Some(IdentityFields());
    assert Get(IdentityFields(), "accountId") == Text(AccountId);
  }

  /**
   * The record spans characters 13 to 213, its accountId is the identity's, readOnly is
   * true, resources is null and the timestamp and identifier are the parsed ones.
   */
  lemma SampleRecordDecodes(conv: Converters)
    requires Accepts(conv)
    ensures DecodeRecord(conv, Tokens(), 4)
         == Ok(Parsed(ClientRecord(Expected(conv), DeliveryInfo(13, 213)), 22))
  {
    TokensShaped();
    SampleFieldsDecode(conv, Tokens());
    SampleAccountIdDerived(conv);
    RecordFromFields(conv, Tokens(), 4, Parsed(ReadFields(conv), 22));
    SampleOffsets();
  }

  /** The sample's offsets only grow. */
  lemma SampleOffsetsAscend()
    ensures OffsetsAscending(Tokens())
  {
  }

  /** Opens the sample: the header is accepted and a first record is announced. */
  method OpenSample(conv: Converters) returns (serializer: RecordSerializer, header: Outcome<Error>, first: bool)
    ensures fresh(serializer) && serializer.Valid()
    ensures serializer.tokens == Tokens() && serializer.conv == conv && serializer.pos == 4
    ensures header == Pass && first
  {
    SampleOffsetsAscend();
    serializer := new RecordSerializer(Tokens(), conv);
    TokensShaped();
    SampleHeader(Tokens());
    header := serializer.ReadArrayHeader();
    first := serializer.HasNextRecord();
  }

  /** Reads the announced record, then finds the end of the record array. */
  method ReadSampleRecord(conv: Converters, serializer: RecordSerializer)
    returns (record: Result<ClientRecord, Error>, more: bool)
    requires Accepts(conv) && serializer.Valid()
    requires serializer.tokens == Tokens() && serializer.conv == conv && serializer.pos == 4
    modifies serializer
    ensures record == Ok(ClientRecord(Expected(conv), DeliveryInfo(13, 213)))
    ensures !more && serializer.pos == 23
  {
    SampleRecordDecodes(conv);
    record := serializer.GetNextRecord();
    assert serializer.pos == 22;
    more := serializer.HasNextRecord();
  }

  /**
   * A caller's pass over the sample: the header is accepted, one record is announced and
   * decoded to the expected fields and range, and then no further record follows.
   */
  method DecodeSample(conv: Converters) returns (header: Outcome<Error>, first: bool,
                                                 record: Result<ClientRecord, Error>, more: bool)
    requires Accepts(conv)
    ensures header == Pass && first && !more
    ensures record == Ok(ClientRecord(Expected(conv), DeliveryInfo(13, 213)))
  {
    var serializer;
    serializer, header, first := OpenSample(conv);
    record, more := ReadSampleRecord(conv, serializer);
  }
}
