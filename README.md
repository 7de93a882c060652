# CloudTrail client library: record decoding and log download

This project models two parts of the AWS CloudTrail client library.

- **The streaming record decoder** (`AbstractRecordSerializer`). It reads a CloudTrail log file, an object
  `{"Records":[ ... ]}`, through a forward-only JSON tokenizer. It checks the header, announces each record,
  and decodes one record at a time into a field map. Known fields get dedicated rules: the event version,
  the user identity with its session context, session issuer, web identity data and attributes, the event
  time, the identifiers, `readOnly` and `resources`. Every other field is passed through as text.
  The decoder derives a top-level `accountId` and brackets the record with the tokenizer's character
  offsets before and after it.
- **The log download** (`AWSCloudTrailClientS3Manager`). It fetches one log file from storage between a
  start and an end progress report. A service or I/O failure goes to the exception handler. The log's
  size is recorded on success. Construction refuses a missing collaborator.

Layout:

- `wrappers.dfy`: `Option`, `Result` (with `:-` support) and `Outcome`.
- `json_tokens.dfy`: the tokenizer's output as a sequence of tokens with character offsets. A read at
  the cursor yields a token, or nothing at end of input. It also holds the depth-counting scan that
  consumes a nested value, and the compact text a nested value is kept as.
- `records.dfy`: the decoder as pure functions of the token sequence and a cursor. Each function gives
  the decoded value and the cursor after it, or the error the decoder raises together with the cursor at
  which it stopped. It also holds the field
  registry and the `accountId` derivation.
- `serializer.dfy`: class `RecordSerializer`, holding the shared cursor and the current token. Every
  parse method of the decoder is a method here. Each is proved to produce what the matching function of
  `records.dfy` describes, value or error, and to leave the cursor where that function says decoding went
  on or stopped.
- `record_properties.dfy`: what the decoder promises, proved about those functions.
- `delivery_offsets.dfy`: the 32-bit narrowing of the offsets, alone and applied to a decoded record (see
  Findings).
- `record_boundary.dfy`: where a record ends when a text-typed field holds an object, as written and as
  evidently intended (see Findings).
- `sample_log.dfy`: a complete one-record log decoded by the functions and by driving the class.
- `s3_manager.dfy`: the download, with the storage outcome as an input. The progress-report and
  exception-handler calls are recorded as a trace.

Three external parsers are parameters of the model, in a `Converters` value: the number parser used on the
event version, the identifier parser and the UTC timestamp parser.

## Model

| member | source | states |
|---|---|---|
| JsonTokens.LocationMonotone | src/main/java/com/amazonaws/services/cloudtrail/clientlibrary/serializer/AbstractRecordSerializer.java:119-156 | the character offset read after a record is never smaller than the one read before it, for a tokenizer that only moves forward |
| JsonTokens.SubtreeEnd | src/main/java/com/amazonaws/services/cloudtrail/clientlibrary/serializer/AbstractRecordSerializer.java:434-436 | consuming a nested value ends just after a closing token, strictly past the start, within the input |
| JsonTokens.SubtreeEndBalances | src/main/java/com/amazonaws/services/cloudtrail/clientlibrary/serializer/AbstractRecordSerializer.java:434-436 | the consumed run closes every open container exactly at its end and at no earlier token |
| JsonTokens.MatchingClose | src/main/java/com/amazonaws/services/cloudtrail/clientlibrary/serializer/AbstractRecordSerializer.java:434-436 | a nested value read as a tree runs from its opening token to the matching closing token: balanced overall, never closed earlier |
| Records.TextValue | src/main/java/com/amazonaws/services/cloudtrail/clientlibrary/serializer/AbstractRecordSerializer.java:459 | reading a text value gives the string, or JSON null for any non-string token |
| Records.ValueAsString | src/main/java/com/amazonaws/services/cloudtrail/clientlibrary/serializer/AbstractRecordSerializer.java:438 | a scalar's string form; null for JSON null |
| Records.DefaultValue | src/main/java/com/amazonaws/services/cloudtrail/clientlibrary/serializer/AbstractRecordSerializer.java:429-442 | pass-through rule: null stays null; a nested object or array is consumed whole and kept as text; a scalar is kept as its string; an unclosed nested value is an error located at the end of input |
| Records.ConvertToDate | src/main/java/com/amazonaws/services/cloudtrail/clientlibrary/serializer/AbstractRecordSerializer.java:483-493 | a null time stays null; otherwise the parsed date, or an error naming the text the format rejects |
| Records.ConvertToUuid | src/main/java/com/amazonaws/services/cloudtrail/clientlibrary/serializer/AbstractRecordSerializer.java:472-474 | an identifier always parses to a UUID value; a null or malformed one is an error |
| Records.ReadOnlyValue | src/main/java/com/amazonaws/services/cloudtrail/clientlibrary/serializer/AbstractRecordSerializer.java:357-364 | readOnly is null, true or false; any other token is an error located just after it |
| Records.FieldValue | src/main/java/com/amazonaws/services/cloudtrail/clientlibrary/serializer/AbstractRecordSerializer.java:124-151 | the per-structure case table for one field value; the cursor never moves back |
| Records.UserIdentityValue | src/main/java/com/amazonaws/services/cloudtrail/clientlibrary/serializer/AbstractRecordSerializer.java:191-200 | userIdentity is null, or an identity object; anything else is an error |
| Records.ResourcesValue | src/main/java/com/amazonaws/services/cloudtrail/clientlibrary/serializer/AbstractRecordSerializer.java:371-389 | resources is null, or an array of resource objects; anything else is an error |
| Records.ObjectValue | src/main/java/com/amazonaws/services/cloudtrail/clientlibrary/serializer/AbstractRecordSerializer.java:246-253 | a sub-structure must open with an object token; its value is an object of that structure, and the last token read is an object-end token (not necessarily its own: see Findings) |
| Records.Fields | src/main/java/com/amazonaws/services/cloudtrail/clientlibrary/serializer/AbstractRecordSerializer.java:121-152 | the field loop ends just after an object-end token in key position (not necessarily the object's own: see Findings); every field read, and every field already held, is in the result; a failure is located between the loop's start and the end of input |
| Records.KeyCursors | src/main/java/com/amazonaws/services/cloudtrail/clientlibrary/serializer/AbstractRecordSerializer.java:121-122 | the cursors at which the field loop reads the object's own names, up to where it stops: each is a field-name token inside the loop's range |
| Records.ResourceItems | src/main/java/com/amazonaws/services/cloudtrail/clientlibrary/serializer/AbstractRecordSerializer.java:384-388 | the resource loop ends just after an array-end token and keeps the resources already read as a prefix; that the token closes the array's own bracket is RecordBoundary.ResourcesEndAtOwnBracket |
| Records.SetAccountId | src/main/java/com/amazonaws/services/cloudtrail/clientlibrary/serializer/AbstractRecordSerializer.java:170-183 | only accountId may change; no identity leaves the record as it was; an identity accountId that is not null is copied to the top level |
| Records.HeaderFailure | src/main/java/com/amazonaws/services/cloudtrail/clientlibrary/serializer/AbstractRecordSerializer.java:75-88 | the header check fails exactly when the header is not there; the error is "not a JSON object" unless the first token opens an object, and the check stops just after the token that broke the header |
| Records.DecodeRecord | src/main/java/com/amazonaws/services/cloudtrail/clientlibrary/serializer/AbstractRecordSerializer.java:114-161 | a record's last token read is an object-end token (not necessarily its own: see Findings), and it carries the offsets read before and after it; a failure carries the cursor where decoding stopped, between the record's start and the end of input |
| Serializer.RecordSerializer.constructor | src/main/java/com/amazonaws/services/cloudtrail/clientlibrary/serializer/AbstractRecordSerializer.java:66-68 | a decoder starts at the beginning of the token stream with nothing read |
| Serializer.RecordSerializer.ReadArrayHeader | src/main/java/com/amazonaws/services/cloudtrail/clientlibrary/serializer/AbstractRecordSerializer.java:75-88 | the header is accepted exactly when it is an object, the name "Records" and an array, and then three tokens are consumed; otherwise "not a JSON object" or "not a CloudTrail log", with the cursor left where Records.HeaderFailure stops |
| Serializer.RecordSerializer.HasNextRecord | src/main/java/com/amazonaws/services/cloudtrail/clientlibrary/serializer/AbstractRecordSerializer.java:93-96 | consumes one token and reports whether it opens an object or an array |
| Serializer.RecordSerializer.ReadValueAsTree | src/main/java/com/amazonaws/services/cloudtrail/clientlibrary/serializer/AbstractRecordSerializer.java:434-436 | reads up to the matching close of the current nested value, with its compact text; an unclosed value is an error with the cursor at the end of input |
| Serializer.RecordSerializer.ParseDefaultValue | src/main/java/com/amazonaws/services/cloudtrail/clientlibrary/serializer/AbstractRecordSerializer.java:429-442 | agrees with Records.DefaultValue in value, error and final cursor |
| Serializer.RecordSerializer.ParseAttributes | src/main/java/com/amazonaws/services/cloudtrail/clientlibrary/serializer/AbstractRecordSerializer.java:450-464 | agrees with the attributes object rule in value or error and cursor: each field's text, and a missing object is an error |
| Serializer.RecordSerializer.ParseSessionIssuer | src/main/java/com/amazonaws/services/cloudtrail/clientlibrary/serializer/AbstractRecordSerializer.java:315-348 | agrees with the session issuer rule in value or error and cursor |
| Serializer.RecordSerializer.ParseWebIdentitySessionContext | src/main/java/com/amazonaws/services/cloudtrail/clientlibrary/serializer/AbstractRecordSerializer.java:282-306 | agrees with the web identity rule in value or error and cursor |
| Serializer.RecordSerializer.ParseSessionContext | src/main/java/com/amazonaws/services/cloudtrail/clientlibrary/serializer/AbstractRecordSerializer.java:246-274 | agrees with the session context rule in value or error and cursor |
| Serializer.RecordSerializer.ParseUserIdentity | src/main/java/com/amazonaws/services/cloudtrail/clientlibrary/serializer/AbstractRecordSerializer.java:191-238 | agrees with Records.UserIdentityValue in value or error and cursor |
| Serializer.RecordSerializer.ParseReadOnly | src/main/java/com/amazonaws/services/cloudtrail/clientlibrary/serializer/AbstractRecordSerializer.java:357-364 | agrees with Records.ReadOnlyValue in value or error and cursor |
| Serializer.RecordSerializer.ParseResource | src/main/java/com/amazonaws/services/cloudtrail/clientlibrary/serializer/AbstractRecordSerializer.java:397-416 | a resource must be the object just read, else an error with no token read; its fields go through the pass-through rule up to an object-end token, which RecordBoundary.ResourceEndsAtOwnBrace shows is its own closing brace; an error leaves the cursor where Records.Fields stops |
| Serializer.RecordSerializer.ParseResources | src/main/java/com/amazonaws/services/cloudtrail/clientlibrary/serializer/AbstractRecordSerializer.java:371-389 | agrees with Records.ResourcesValue in value or error and cursor |
| Serializer.RecordSerializer.GetNextRecord | src/main/java/com/amazonaws/services/cloudtrail/clientlibrary/serializer/AbstractRecordSerializer.java:114-161 | agrees with Records.DecodeRecord in the record or the error, and leaves the cursor where it says decoding went on or stopped; the start offset is at most the end offset; the last token read is an object-end token |
| Serializer.RecordSerializer.ParseRecordField | src/main/java/com/amazonaws/services/cloudtrail/clientlibrary/serializer/AbstractRecordSerializer.java:124-151 | the record's case table for one field agrees with Records.FieldValue in value or error and cursor |
| RecordProperties.DefaultValueCases | src/main/java/com/amazonaws/services/cloudtrail/clientlibrary/serializer/AbstractRecordSerializer.java:429-442 | null gives null and consumes one token; a scalar gives its text; a nested value gives text and consumes exactly its balanced run |
| RecordProperties.DefaultValueUnclosed | src/main/java/com/amazonaws/services/cloudtrail/clientlibrary/serializer/AbstractRecordSerializer.java:434-436 | a nested value the input leaves open is an error located at the end of input, never a truncated text |
| RecordProperties.FlatStructuresHoldText | src/main/java/com/amazonaws/services/cloudtrail/clientlibrary/serializer/AbstractRecordSerializer.java:315-348 | session issuer, resource and attribute objects hold only text or null values |
| RecordProperties.ResourcesInArrayOrder | src/main/java/com/amazonaws/services/cloudtrail/clientlibrary/serializer/AbstractRecordSerializer.java:382-388 | resources are appended in array order: decoding after earlier resources gives those resources followed by what decoding the rest alone gives, with the same end cursor, and fails with the same error when that fails |
| RecordProperties.ResourcesHoldText | src/main/java/com/amazonaws/services/cloudtrail/clientlibrary/serializer/AbstractRecordSerializer.java:397-416 | every decoded resource holds only text or null values |
| RecordProperties.ResourcesNullOrEmpty | src/main/java/com/amazonaws/services/cloudtrail/clientlibrary/serializer/AbstractRecordSerializer.java:371-389 | null gives null, [] gives an empty list, and any other token is an error located just after it |
| RecordProperties.UnknownFieldsPassThrough | src/main/java/com/amazonaws/services/cloudtrail/clientlibrary/serializer/AbstractRecordSerializer.java:148-150 | a field name outside a structure's known set goes through the pass-through rule |
| RecordProperties.FieldKept | src/main/java/com/amazonaws/services/cloudtrail/clientlibrary/serializer/AbstractRecordSerializer.java:121-152 | a field read successfully is present in the decoded object |
| RecordProperties.ReadOnlyNullIsPresent | src/main/java/com/amazonaws/services/cloudtrail/clientlibrary/serializer/AbstractRecordSerializer.java:357-364 | an explicit null readOnly is stored as a present null, unlike an absent field |
| RecordProperties.LaterAttributeWins | src/main/java/com/amazonaws/services/cloudtrail/clientlibrary/serializer/AbstractRecordSerializer.java:457-461 | in an attribute map, a name repeated in the next pair keeps the later string value |
| RecordProperties.NameNotReadAgainKept | src/main/java/com/amazonaws/services/cloudtrail/clientlibrary/serializer/AbstractRecordSerializer.java:121-152 | a name that none of the object's own later keys (its key cursors) repeats keeps the value it had, whatever the loop reads after it; names inside nested values do not matter |
| RecordProperties.LastOccurrenceWins | src/main/java/com/amazonaws/services/cloudtrail/clientlibrary/serializer/AbstractRecordSerializer.java:457-461 | in every structure, a key that no later key of the same object repeats keeps the value read for it, at any distance from earlier occurrences and whatever names its nested values use |
| RecordProperties.KeysReadAtKeyCursors | src/main/java/com/amazonaws/services/cloudtrail/clientlibrary/serializer/AbstractRecordSerializer.java:121-152 | a decoded object's names are exactly the names already held plus the names read at its key cursors |
| RecordProperties.EventTimeConversion | src/main/java/com/amazonaws/services/cloudtrail/clientlibrary/serializer/AbstractRecordSerializer.java:135-137 | eventTime is null for a null or non-string value, an error located just after the text the format rejects, and the parsed date otherwise |
| RecordProperties.IdentifierConversion | src/main/java/com/amazonaws/services/cloudtrail/clientlibrary/serializer/AbstractRecordSerializer.java:138-141 | eventID and requestID succeed exactly for a string that parses as a UUID; otherwise the error is a bad UUID located just after the identifier's token |
| RecordProperties.EventVersionKeptAsText | src/main/java/com/amazonaws/services/cloudtrail/clientlibrary/serializer/AbstractRecordSerializer.java:125-131 | eventVersion is accepted exactly when it is a string that parses as a number, and then it is kept as that text |
| RecordProperties.SubStructureShapes | src/main/java/com/amazonaws/services/cloudtrail/clientlibrary/serializer/AbstractRecordSerializer.java:191-200 | userIdentity may be null; it and the nested structures must otherwise be objects, the error located just after the offending token |
| RecordProperties.AccountIdFromIssuer | src/main/java/com/amazonaws/services/cloudtrail/clientlibrary/serializer/AbstractRecordSerializer.java:177-181 | without the identity's own accountId, the session issuer's is used, even a null one |
| RecordProperties.AccountIdAbsentWithoutSource | src/main/java/com/amazonaws/services/cloudtrail/clientlibrary/serializer/AbstractRecordSerializer.java:170-183 | with neither source, no accountId is added |
| RecordProperties.IdentityAccountIdWins | src/main/java/com/amazonaws/services/cloudtrail/clientlibrary/serializer/AbstractRecordSerializer.java:175-176 | the identity's accountId takes precedence over the issuer's and over one the file itself carries |
| RecordProperties.DeliveryRangeOrdered | src/main/java/com/amazonaws/services/cloudtrail/clientlibrary/serializer/AbstractRecordSerializer.java:118-158 | a decoded record's start offset never exceeds its end offset |
| RecordProperties.DecodeFailureLocated | src/main/java/com/amazonaws/services/cloudtrail/clientlibrary/serializer/AbstractRecordSerializer.java:107-161 | a failed record stops at a cursor between its opening brace and the end of input, whose character offset is at or after the record's start offset |
| DeliveryOffsets.ToInt32 | src/main/java/com/amazonaws/services/cloudtrail/clientlibrary/serializer/AbstractRecordSerializer.java:119 | the cast keeps the low 32 bits as a signed int: in range, congruent to the input, and the identity below 2^31 |
| DeliveryOffsets.AsWrittenRangeOrderedBelowLimit | src/main/java/com/amazonaws/services/cloudtrail/clientlibrary/serializer/AbstractRecordSerializer.java:119-156 | below 2^31 characters the narrowed offsets are the offsets themselves |
| DeliveryOffsets.AsWrittenRangeInverts | src/main/java/com/amazonaws/services/cloudtrail/clientlibrary/serializer/AbstractRecordSerializer.java:119-156 | a record spanning character 2^31 gets a positive start and a negative end |
| DeliveryOffsets.AsWrittenDecodeRecord | src/main/java/com/amazonaws/services/cloudtrail/clientlibrary/serializer/AbstractRecordSerializer.java:114-161 | a record decoded as written: the decoder's fields, cursor, success and error, with both offsets narrowed to an int |
| DeliveryOffsets.AsWrittenDecodeInverts | src/main/java/com/amazonaws/services/cloudtrail/clientlibrary/serializer/AbstractRecordSerializer.java:119-156 | every decoded record that starts below character 2^31 and ends at or beyond it, and before 2^32, gets a negative end and a start greater than that end |
| DeliveryOffsets.LimitCrossingRecordInverts | src/main/java/com/amazonaws/services/cloudtrail/clientlibrary/serializer/AbstractRecordSerializer.java:119-156 | an empty record read across character 2^31 decodes, as written, to start 2147483392 and end -2147483392 |
| RecordBoundary.NestedTextEndsRecordEarly | src/main/java/com/amazonaws/services/cloudtrail/clientlibrary/serializer/AbstractRecordSerializer.java:121-137 | as written, a record whose eventTime holds an object is cut at that object's closing brace: its fields are eventTime null plus the nested object's own fields, the run read is still one level open, and the next token is a field name, so no further record is announced |
| RecordBoundary.WholeTextValue | src/main/java/com/amazonaws/services/cloudtrail/clientlibrary/serializer/AbstractRecordSerializer.java:459 | a text field read as intended: the same value as the text read, the same cursor for a scalar, a nested value consumed up to its matching close, and an error only for one the input leaves open |
| RecordBoundary.ObjectEndsAtOwnBrace | src/main/java/com/amazonaws/services/cloudtrail/clientlibrary/serializer/AbstractRecordSerializer.java:246-253 | with text fields read whole, any object's field loop ends at the token matching its opening brace, where consuming its subtree ends |
| RecordBoundary.ResourceFieldsAgree | src/main/java/com/amazonaws/services/cloudtrail/clientlibrary/serializer/AbstractRecordSerializer.java:397-416 | a resource has no text-typed fields, so the code as written and the whole-value reading decode it identically, in result and error |
| RecordBoundary.ResourceItemsAgree | src/main/java/com/amazonaws/services/cloudtrail/clientlibrary/serializer/AbstractRecordSerializer.java:382-388 | the code as written and the whole-value reading decode a resources array identically |
| RecordBoundary.ResourceEndsAtOwnBrace | src/main/java/com/amazonaws/services/cloudtrail/clientlibrary/serializer/AbstractRecordSerializer.java:397-416 | as written, a resource ends at the object-end token matching its own opening brace: balanced, open at every earlier cursor, and where consuming its subtree ends |
| RecordBoundary.ResourcesEndAtOwnBracket | src/main/java/com/amazonaws/services/cloudtrail/clientlibrary/serializer/AbstractRecordSerializer.java:382-388 | as written, a resources array ends at the array-end token matching its own opening bracket: balanced, open at every earlier cursor, and where consuming its subtree ends |
| RecordBoundary.RecordEndsAtOwnBrace | src/main/java/com/amazonaws/services/cloudtrail/clientlibrary/serializer/AbstractRecordSerializer.java:114-161 | with text fields read whole, a record ends at the object-end token that matches its own opening brace: balanced, open at every earlier cursor, and where consuming its subtree ends |
| SampleLog.SampleHeader | src/main/java/com/amazonaws/services/cloudtrail/clientlibrary/serializer/AbstractRecordSerializer.java:75-88 | the sample file opens with the record-array header |
| SampleLog.SampleIdentityFields | src/main/java/com/amazonaws/services/cloudtrail/clientlibrary/serializer/AbstractRecordSerializer.java:204-236 | the sample identity's fields are its type and accountId texts |
| SampleLog.SampleIdentityDecodes | src/main/java/com/amazonaws/services/cloudtrail/clientlibrary/serializer/AbstractRecordSerializer.java:191-238 | the sample's userIdentity is an identity object ending at its closing brace |
| SampleLog.SampleVersionDecodes | src/main/java/com/amazonaws/services/cloudtrail/clientlibrary/serializer/AbstractRecordSerializer.java:125-131 | the sample's eventVersion "1.02" is kept as text |
| SampleLog.SampleTimeDecodes | src/main/java/com/amazonaws/services/cloudtrail/clientlibrary/serializer/AbstractRecordSerializer.java:135-137 | the sample's eventTime is the parsed date |
| SampleLog.SampleIdDecodes | src/main/java/com/amazonaws/services/cloudtrail/clientlibrary/serializer/AbstractRecordSerializer.java:138-141 | the sample's eventID is the parsed identifier |
| SampleLog.SampleUserIdentityStored | src/main/java/com/amazonaws/services/cloudtrail/clientlibrary/serializer/AbstractRecordSerializer.java:132-134 | the sample's identity object is stored whole under userIdentity |
| SampleLog.SampleFlagsDecode | src/main/java/com/amazonaws/services/cloudtrail/clientlibrary/serializer/AbstractRecordSerializer.java:142-147 | the sample's readOnly true becomes the flag, resources null stays null, and the record closes |
| SampleLog.SampleFieldsDecode | src/main/java/com/amazonaws/services/cloudtrail/clientlibrary/serializer/AbstractRecordSerializer.java:121-152 | the sample record's six fields, in file order |
| SampleLog.SampleOffsets | src/main/java/com/amazonaws/services/cloudtrail/clientlibrary/serializer/AbstractRecordSerializer.java:119-156 | the sample record starts after character 13 and ends after character 213 |
| SampleLog.SampleAccountIdDerived | src/main/java/com/amazonaws/services/cloudtrail/clientlibrary/serializer/AbstractRecordSerializer.java:170-183 | the sample's top-level accountId is the identity's "123456789012" |
| SampleLog.SampleRecordDecodes | src/main/java/com/amazonaws/services/cloudtrail/clientlibrary/serializer/AbstractRecordSerializer.java:114-161 | the sample decodes to exactly the expected record and range |
| SampleLog.OpenSample | src/main/java/com/amazonaws/services/cloudtrail/clientlibrary/serializer/AbstractRecordSerializer.java:75-96 | the class accepts the sample's header and announces one record |
| SampleLog.ReadSampleRecord | src/main/java/com/amazonaws/services/cloudtrail/clientlibrary/serializer/AbstractRecordSerializer.java:93-161 | the class decodes the sample record, then finds no further record |
| SampleLog.DecodeSample | src/main/java/com/amazonaws/services/cloudtrail/clientlibrary/serializer/AbstractRecordSerializer.java:75-161 | a whole pass over the sample: header accepted, one record decoded as expected, then the end of the array |
| S3Manager.Validate | src/main/java/com/amazonaws/services/cloudtrail/clientlibrary/manager/AWSCloudTrailClientS3Manager.java:130-135 | construction succeeds exactly when all four collaborators are present; otherwise the first missing one is reported, in the order checked |
| S3Manager.S3Manager.Create | src/main/java/com/amazonaws/services/cloudtrail/clientlibrary/manager/AWSCloudTrailClientS3Manager.java:67-73 | a manager is made exactly when validation passes, with no calls made yet; otherwise the validation message is returned |
| S3Manager.S3Manager.DownloadLog | src/main/java/com/amazonaws/services/cloudtrail/clientlibrary/manager/AWSCloudTrailClientS3Manager.java:81-109 | the calls are exactly the download's start, handler and end calls; success returns the bytes and records the size; service and read failures return nothing; a close failure returns the bytes read; any other client failure propagates |
| S3Manager.DownloadIsBracketed | src/main/java/com/amazonaws/services/cloudtrail/clientlibrary/manager/AWSCloudTrailClientS3Manager.java:81-109 | every download is bracketed: one start report first and one end report last, carrying the start report's token. The start status never reports success; the end status does exactly on a successful fetch. The handler is called once, with the start status, exactly for a caught failure |

## Left out

- The JSON tokenizer itself, which is the Jackson parser. Its output is the input of the model. Character
  offsets are given per token, and bracket-kind matching, escaping and malformed JSON are its concern.
- Records.DefaultValue: the kept text of a nested value is a compact rendering of its tokens. It is not
  Jackson's exact tree serialisation: string escaping and number formatting are not modelled.
- Records.ConvertToDate and Records.ConvertToUuid: UUID and UTC timestamp parsing, and the number parser
  behind the event version check, are parameters of the model. Their formats are not modelled.
- The warning logged for an event version newer than 1.02 (lines 127-129) is logging only. So are the
  download's info and error log lines. No logging is modelled.
- A token other than a field name in key position. The model rejects every such token, and the end of
  input, with `MissingFieldName`. In the source the outcome follows the tokenizer's current-name rule
  (lines 122, 205, 254 and the other loops call `getCurrentName()`): for some tokens it yields null,
  which the switch dereferences; for others, such as the closing token of an array just passed over by a
  text read, it yields the enclosing field's name, and the source dispatches that name again instead of
  failing. That rule belongs to the tokenizer and is not modelled. A missing header name, which line 81
  dereferences, is "not a CloudTrail log" in the model. A null or non-number event
  version is the error `BadEventVersion`.
- `close()` (lines 103-105) closes the tokenizer. There is no resource state to model.
- `getDeliveryInfo` is abstract in the source (line 47). The model keeps the (start, end) offset pair it
  receives.
- Serializer.RecordSerializer.ParseRecordField: the record's case table is inline in `getNextRecord` in the
  source (lines 124-151). The model gives it its own method.
- Records.SetAccountId: a top-level accountId read from the file is overwritten when the identity or the
  issuer supplies one. This follows the code (lines 175-181), which writes unconditionally.
- `getObject` (lines 118-125 of the manager) only logs and rethrows. It is folded into the storage outcome.
- S3Manager.S3Manager.DownloadLog: exceptions raised by the progress reporter or the exception handler are
  not modelled. Storage, the stream and its close are one outcome given as input.
- Records.DecodeRecord: that a record ends at its own closing brace is not proved for the code as written,
  even under the condition that text-typed fields hold scalars. Which positions are text-typed depends on
  the structure being read; in an attribute map every name is. It is proved for the whole-value reading
  instead, as RecordBoundary.RecordEndsAtOwnBrace (see Findings).
- Records.ConvertToDate: the doc comment at line 477 says a timestamp that does not parse gives the current
  date, but the code at lines 486-490 throws an `IOException` instead. The model follows the code: such
  text is the error `BadDate`, located just after its token.
- Serializer.RecordSerializer.GetNextRecord: the doc comment at lines 107-110 says a failed record raises
  `AWSCloudTrailClientParsingException`, with the end offset marking where parsing failed. The code raises
  whatever the tokenizer, `Double.parseDouble`, `UUID.fromString` or the date conversion raises, and reports
  no offset with it. The model follows the code: an `Error` carries no character offset. The cursor where
  decoding stopped is `Failure.at`, and the method is proved to leave the cursor there, so the tokenizer's
  current location at that point is `Location(tokens, at)` (RecordProperties.DecodeFailureLocated). Nor
  does the code resume after a failed record, for example one with a malformed eventID: the cursor stays
  inside that record, and nothing in the decoder skips to the next one. The model has no recovery either.
- `ClientLibraryUtils` (argument checks, byte reading, the date format) is not part of this model.
  `checkArgumentNotNull` is taken to refuse a null argument with the given message.

## Findings

| source | as written | input that shows it | evidently intended | confidence | as-written member | corrected member |
|---|---|---|---|---|---|---|
| src/main/java/com/amazonaws/services/cloudtrail/clientlibrary/serializer/AbstractRecordSerializer.java:119-156 | the tokenizer's 64-bit character offsets are cast to `int` before they are paired | a record from character 2147483392 to 2147483904 (0x7FFFFF00 to 0x80000100) gets start 2147483392 and end -2147483392 | the start offset is never greater than the end offset | not executed | DeliveryOffsets.LimitCrossingRecordInverts | RecordProperties.DeliveryRangeOrdered |
| src/main/java/com/amazonaws/services/cloudtrail/clientlibrary/serializer/AbstractRecordSerializer.java:121-137 | every text-typed field (eventTime here; the identity, issuer, web identity and attribute texts likewise) is read with `nextTextValue()`, which yields null for an object or array but consumes only its opening token; the field loop then stops at that nested value's closing brace | the record `{"eventTime":{"x":1},"eventName":"u"}` followed by `,{}]` is read as {eventTime: null, x: "1"}, ending one level deep; the next token is the name "eventName", so no further record is announced and the rest of the file is dropped without an error | a text field's nested value is consumed whole, and a record ends at the brace that matches its own opening brace | not executed | RecordBoundary.NestedTextEndsRecordEarly | RecordBoundary.RecordEndsAtOwnBrace |

The offsets finding is corrected throughout the model: Records.DecodeRecord keeps the offsets unnarrowed.
For the nested-value finding, the decoding functions and the class follow the code as written, so that
they keep modelling the source. The intended reading is the separate family of `Whole…` functions in
`record_boundary.dfy`. It differs from Records.FieldValue only in how a text-typed field is read
(RecordBoundary.WholeTextValue). Where no field is text-typed, in resources and resources arrays, the two
readings are proved equal (RecordBoundary.ResourceFieldsAgree, RecordBoundary.ResourceItemsAgree).
