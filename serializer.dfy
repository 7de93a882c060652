/**
 * The streaming record decoder: a forward-only cursor over the tokenizer's output. Every
 * read advances the shared cursor by one token; each parse method is proved to produce
 * what the matching function of module Records describes and to leave the cursor where
 * that function says.
 */
module Serializer {
  import opened Wrappers
  import opened JsonTokens
  import opened Records

  class RecordSerializer {
    /** The tokenizer's output for one log file. */
    const tokens: seq<Token>
    /** The identifier, timestamp and number parsers the decoder calls. */
    const conv: Converters
    /** Number of tokens read so far. */
    var pos: nat
    /** The token most recently read; None before the first read and at end of input. */
    var current: Option<Token>

    ghost predicate Valid()
      reads this
    {
      && pos <= |tokens|
      && OffsetsAscending(tokens)
      && (current.Some? ==> 0 < pos && current.value == tokens[pos - 1])
    }

    /**
     * The outcome of a parse method agrees with its specification from the old cursor: the
     * same value or error, and the cursor where the specification says decoding went on or
     * stopped.
     */
    ghost predicate Agrees(spec: Result<Parsed<Value>, Failure>, r: Result<Value, Error>)
      reads this
    {
      match spec
      case Ok(p) => r == Ok(p.value) && pos == p.next
      case Err(f) => r == Err(f.error) && pos == f.at
    }

    constructor (tokens: seq<Token>, conv: Converters)
      requires OffsetsAscending(tokens)
      ensures Valid() && this.tokens == tokens && this.conv == conv && pos == 0 && current == None
    {
      this.tokens := tokens;
      this.conv := conv;
      pos := 0;
      current := None;
    }

    /** The tokenizer's character offset at the cursor. */
    function CurrentLocation(): nat
      reads this
      requires Valid()
    {
      Location(tokens, pos)
    }

    /** Reads one token. */
    method NextToken() returns (t: Option<Token>)
      requires Valid()
      modifies this
      ensures Valid() && pos == Next(tokens, old(pos)) && t == At(tokens, old(pos)) && current == t
    {
      if pos < |tokens| {
        t := Some(tokens[pos]);
        pos := pos + 1;
      } else {
        t := None;
      }
      current := t;
    }

    /** Reads one token and gives its text when it is a string, null otherwise. */
    method NextTextValue() returns (v: Value)
      requires Valid()
      modifies this
      ensures Valid() && pos == Next(tokens, old(pos)) && v == TextValue(tokens, old(pos))
    {
      var t := NextToken();
      v := if t.Some? && t.value.kind == StringValue then Text(t.value.text) else Null;
    }

    /** Checks the file header: an object, the field name "Records", then an array. */
    method ReadArrayHeader() returns (r: Outcome<Error>)
      requires Valid()
      modifies this
      ensures Valid() && old(pos) <= pos
      ensures r.Pass? <==> IsHeader(tokens, old(pos))
      ensures r.Pass? ==> pos == old(pos) + 3
      ensures r.Fail? ==> r.error == (if At(tokens, old(pos)).Some? && tokens[old(pos)].kind == StartObject
                                      then NotCloudTrailLog else NotJsonObject)
      ensures match HeaderFailure(tokens, old(pos))
        case None => r == Pass
        case Some(f) => r == Fail(f.error) && pos == f.at
    {
      var t := NextToken();
      if t.None? || t.value.kind != StartObject {
        return Fail(NotJsonObject);
      }
      t := NextToken();
      if t.None? || t.value.text != RecordsKey {
        return Fail(NotCloudTrailLog);
      }
      t := NextToken();
      if t.None? || t.value.kind != StartArray {
        return Fail(NotCloudTrailLog);
      }
      r := Pass;
    }

    /** Reads one token; true when it opens another record (an object, or defensively an array). */
    method HasNextRecord() returns (b: bool)
      requires Valid()
      modifies this
      ensures Valid() && pos == Next(tokens, old(pos))
      ensures b <==> old(pos) < |tokens| && IsOpen(tokens[old(pos)].kind)
    {
      var t := NextToken();
      b := t.Some? && (t.value.kind == StartObject || t.value.kind == StartArray);
    }

    /**
     * Reads the rest of the nested value whose opening token is the current one, up to and
     * including its matching closing token, and gives its text.
     */
    method ReadValueAsTree() returns (r: Result<string, Error>)
      requires Valid() && current.Some? && IsOpen(current.value.kind)
      modifies this
      ensures Valid() && old(pos) <= pos
      ensures match SubtreeEnd(tokens, old(pos), 1)
        case None => r == Err(UnclosedValue) && pos == |tokens|
        case Some(j) => r == Ok(Render(tokens[old(pos) - 1..j])) && pos == j
    {
      var start := pos - 1;
      var depth: nat := 1;
      while true
        invariant Valid() && old(pos) <= pos && depth > 0
        invariant SubtreeEnd(tokens, pos, depth) == SubtreeEnd(tokens, old(pos), 1)
        decreases |tokens| - pos
      {
        var t := NextToken();
        if t.None? {
          return Err(UnclosedValue);
        }
        if depth + Delta(t.value.kind) == 0 {
          break;
        }
        depth := depth + Delta(t.value.kind);
      }
      r := Ok(Render(tokens[start..pos]));
    }

    /** The pass-through rule for a field value. */
    method ParseDefaultValue() returns (r: Result<Value, Error>)
      requires Valid()
      modifies this
      ensures Valid() && old(pos) <= pos
      ensures Agrees(DefaultValue(tokens, old(pos)), r)
    {
      ghost var at := pos;
      var t := NextToken();
      r := Ok(Null);
      if t.Some? && t.value.kind != NullValue {
        if t.value.kind == StartArray || t.value.kind == StartObject {
          var tree := ReadValueAsTree();
          NestedDefaultValue(tokens, at);
          if tree.Err? {
            return Err(tree.error);
          }
          r := Ok(Text(tree.value));
        } else {
          r := Ok(ValueAsString(t));
        }
      }
    }

    /** An attributes object: every field's string text, a later name replacing an earlier one. */
    method ParseAttributes() returns (r: Result<Value, Error>)
      requires Valid()
      modifies this
      ensures Valid() && old(pos) <= pos
      ensures Agrees(ObjectValue(conv, Attributes, tokens, old(pos)), r)
    {
      var t := NextToken();
      if t.None? || t.value.kind != StartObject {
        return Err(NotAnObject(Attributes));
      }
      var attributes: FieldMap := map[];
      while true
        invariant Valid() && old(pos) < pos
        invariant Fields(conv, Attributes, tokens, pos, attributes) == Fields(conv, Attributes, tokens, old(pos) + 1, map[])
        decreases |tokens| - pos
      {
        ghost var keyAt := pos;
        var k := NextToken();
        if k.Some? && k.value.kind == EndObject {
          break;
        }
        if k.None? || k.value.kind != FieldName {
          assert Fields(conv, Attributes, tokens, keyAt, attributes) == Err(Failure(MissingFieldName, pos));
          return Err(MissingFieldName);
        }
        var value := NextTextValue();
        attributes := attributes[k.value.text := value];
      }
      r := Ok(Object(Attributes, attributes));
    }

    /** A session issuer object. */
    method ParseSessionIssuer() returns (r: Result<Value, Error>)
      requires Valid()
      modifies this
      ensures Valid() && old(pos) <= pos
      ensures Agrees(ObjectValue(conv, Issuer, tokens, old(pos)), r)
    {
      var t := NextToken();
      if t.None? || t.value.kind != StartObject {
        return Err(NotAnObject(Issuer));
      }
      var issuer: FieldMap := map[];
      while true
        invariant Valid() && old(pos) < pos
        invariant Fields(conv, Issuer, tokens, pos, issuer) == Fields(conv, Issuer, tokens, old(pos) + 1, map[])
        decreases |tokens| - pos
      {
        ghost var keyAt := pos;
        var k := NextToken();
        if k.Some? && k.value.kind == EndObject {
          break;
        }
        if k.None? || k.value.kind != FieldName {
          assert Fields(conv, Issuer, tokens, keyAt, issuer) == Err(Failure(MissingFieldName, pos));
          return Err(MissingFieldName);
        }
        var key := k.value.text;
        ghost var at := pos;
        var v: Value;
        if key in KnownFields(Issuer) {
          v := NextTextValue();
        } else {
          var d := ParseDefaultValue();
          if d.Err? {
            assert Fields(conv, Issuer, tokens, keyAt, issuer) == Err(Failure(d.error, pos));
            return Err(d.error);
          }
          v := d.value;
        }
        assert FieldValue(conv, Issuer, key, tokens, at) == Ok(Parsed(v, pos));
        issuer := issuer[key := v];
      }
      r := Ok(Object(Issuer, issuer));
    }

    /** A web identity federation object. */
    method ParseWebIdentitySessionContext() returns (r: Result<Value, Error>)
      requires Valid()
      modifies this
      ensures Valid() && old(pos) <= pos
      ensures Agrees(ObjectValue(conv, WebIdentity, tokens, old(pos)), r)
    {
      var t := NextToken();
      if t.None? || t.value.kind != StartObject {
        return Err(NotAnObject(WebIdentity));
      }
      var webIdFederationData: FieldMap := map[];
      while true
        invariant Valid() && old(pos) < pos
        invariant Fields(conv, WebIdentity, tokens, pos, webIdFederationData)
               == Fields(conv, WebIdentity, tokens, old(pos) + 1, map[])
        decreases |tokens| - pos
      {
        ghost var keyAt := pos;
        var k := NextToken();
        if k.Some? && k.value.kind == EndObject {
          break;
        }
        if k.None? || k.value.kind != FieldName {
          assert Fields(conv, WebIdentity, tokens, keyAt, webIdFederationData) == Err(Failure(MissingFieldName, pos));
          return Err(MissingFieldName);
        }
        var key := k.value.text;
        var v: Result<Value, Error>;
        if key == "attributes" {
          v := ParseAttributes();
        } else if key == "federatedProvider" {
          var text := NextTextValue();
          v := Ok(text);
        } else {
          v := ParseDefaultValue();
        }
        if v.Err? {
          assert Fields(conv, WebIdentity, tokens, keyAt, webIdFederationData) == Err(Failure(v.error, pos));
          return Err(v.error);
        }
        webIdFederationData := webIdFederationData[key := v.value];
      }
      r := Ok(Object(WebIdentity, webIdFederationData));
    }

    /** A session context object. */
    method ParseSessionContext() returns (r: Result<Value, Error>)
      requires Valid()
      modifies this
      ensures Valid() && old(pos) <= pos
      ensures Agrees(ObjectValue(conv, Context, tokens, old(pos)), r)
    {
      var t := NextToken();
      if t.None? || t.value.kind != StartObject {
        return Err(NotAnObject(Context));
      }
      var sessionContext: FieldMap := map[];
      while true
        invariant Valid() && old(pos) < pos
        invariant Fields(conv, Context, tokens, pos, sessionContext) == Fields(conv, Context, tokens, old(pos) + 1, map[])
        decreases |tokens| - pos
      {
        ghost var keyAt := pos;
        var k := NextToken();
        if k.Some? && k.value.kind == EndObject {
          break;
        }
        if k.None? || k.value.kind != FieldName {
          assert Fields(conv, Context, tokens, keyAt, sessionContext) == Err(Failure(MissingFieldName, pos));
          return Err(MissingFieldName);
        }
        var key := k.value.text;
        var v: Result<Value, Error>;
        if key == "attributes" {
          v := ParseAttributes();
        } else if key == "sessionIssuer" {
          v := ParseSessionIssuer();
        } else if key == "webIdFederationData" {
          v := ParseWebIdentitySessionContext();
        } else {
          v := ParseDefaultValue();
        }
        if v.Err? {
          assert Fields(conv, Context, tokens, keyAt, sessionContext) == Err(Failure(v.error, pos));
          return Err(v.error);
        }
        sessionContext := sessionContext[key := v.value];
      }
      r := Ok(Object(Context, sessionContext));
    }

    /** The userIdentity field: null, or an identity object. */
    method ParseUserIdentity() returns (r: Result<Value, Error>)
      requires Valid()
      modifies this
      ensures Valid() && old(pos) <= pos
      ensures Agrees(UserIdentityValue(conv, tokens, old(pos)), r)
    {
      var t := NextToken();
      if t.Some? && t.value.kind == NullValue {
        return Ok(Null);
      }
      if t.None? || t.value.kind != StartObject {
        return Err(NotAnObject(Identity));
      }
      var userIdentity: FieldMap := map[];
      while true
        invariant Valid() && old(pos) < pos
        invariant Fields(conv, Identity, tokens, pos, userIdentity) == Fields(conv, Identity, tokens, old(pos) + 1, map[])
        decreases |tokens| - pos
      {
        ghost var keyAt := pos;
        var k := NextToken();
        if k.Some? && k.value.kind == EndObject {
          break;
        }
        if k.None? || k.value.kind != FieldName {
          assert Fields(conv, Identity, tokens, keyAt, userIdentity) == Err(Failure(MissingFieldName, pos));
          return Err(MissingFieldName);
        }
        var key := k.value.text;
        ghost var at := pos;
        var v: Result<Value, Error>;
        if key == "sessionContext" {
          v := ParseSessionContext();
        } else if key in KnownFields(Identity) {
          var text := NextTextValue();
          v := Ok(text);
        } else {
          v := ParseDefaultValue();
        }
        assert Agrees(FieldValue(conv, Identity, key, tokens, at), v);
        if v.Err? {
          assert Fields(conv, Identity, tokens, keyAt, userIdentity) == Err(Failure(v.error, pos));
          return Err(v.error);
        }
        userIdentity := userIdentity[key := v.value];
      }
      r := Ok(Object(Identity, userIdentity));
    }

    /** The readOnly field: null, or a boolean. */
    method ParseReadOnly() returns (r: Result<Value, Error>)
      requires Valid()
      modifies this
      ensures Valid() && old(pos) <= pos
      ensures Agrees(ReadOnlyValue(tokens, old(pos)), r)
    {
      var _ := NextToken();
      r := Ok(Null);
      if current.None? || current.value.kind != NullValue {
        if current.Some? && current.value.kind == TrueValue {
          r := Ok(Bool(true));
        } else if current.Some? && current.value.kind == FalseValue {
          r := Ok(Bool(false));
        } else {
          r := Err(NotBoolean);
        }
      }
    }

    /** One resource whose opening token is the current one: every field through the pass-through rule. */
    method ParseResource() returns (r: Result<FieldMap, Error>)
      requires Valid()
      modifies this
      ensures Valid() && old(pos) <= pos
      ensures old(current).None? || old(current).value.kind != StartObject ==>
        r == Err(NotAnObject(Resource)) && pos == old(pos)
      ensures old(current).Some? && old(current).value.kind == StartObject ==>
        match Fields(conv, Resource, tokens, old(pos), map[])
        case Ok(p) => r == Ok(p.value) && pos == p.next
        case Err(f) => r == Err(f.error) && pos == f.at
    {
      if current.None? || current.value.kind != StartObject {
        return Err(NotAnObject(Resource));
      }
      var resource: FieldMap := map[];
      while true
        invariant Valid() && old(pos) <= pos
        invariant Fields(conv, Resource, tokens, pos, resource) == Fields(conv, Resource, tokens, old(pos), map[])
        decreases |tokens| - pos
      {
        ghost var keyAt := pos;
        var k := NextToken();
        if k.Some? && k.value.kind == EndObject {
          break;
        }
        if k.None? || k.value.kind != FieldName {
          assert Fields(conv, Resource, tokens, keyAt, resource) == Err(Failure(MissingFieldName, pos));
          return Err(MissingFieldName);
        }
        var v := ParseDefaultValue();
        if v.Err? {
          assert Fields(conv, Resource, tokens, keyAt, resource) == Err(Failure(v.error, pos));
          return Err(v.error);
        }
        resource := resource[k.value.text := v.value];
      }
      r := Ok(resource);
    }

    /** The resources field: null, or an array of resources kept in array order. */
    method ParseResources() returns (r: Result<Value, Error>)
      requires Valid()
      modifies this
      ensures Valid() && old(pos) <= pos
      ensures Agrees(ResourcesValue(conv, tokens, old(pos)), r)
    {
      var t := NextToken();
      if t.Some? && t.value.kind == NullValue {
        return Ok(Null);
      }
      if t.None? || t.value.kind != StartArray {
        return Err(NotResourceList);
      }
      var resources: seq<FieldMap> := [];
      while true
        invariant Valid() && old(pos) < pos
        invariant ResourceItems(conv, tokens, pos, resources) == ResourceItems(conv, tokens, old(pos) + 1, [])
        decreases |tokens| - pos
      {
        var e := NextToken();
        if e.Some? && e.value.kind == EndArray {
          break;
        }
        var resource := ParseResource();
        if resource.Err? {
          return Err(resource.error);
        }
        resources := resources + [resource.value];
      }
      r := Ok(ResourceList(resources));
    }

    /**
     * Decodes the record whose opening token has just been read, up to an object-end token
     * in key position (not necessarily its own; see RecordBoundary), derives its accountId
     * and brackets it with the offsets before and after it.
     */
    method GetNextRecord() returns (r: Result<ClientRecord, Error>)
      requires Valid()
      modifies this
      ensures Valid() && old(pos) <= pos
      ensures match DecodeRecord(conv, tokens, old(pos))
        case Ok(p) => r == Ok(p.value) && pos == p.next
        case Err(f) => r == Err(f.error) && pos == f.at
      ensures r.Ok? ==> r.value.deliveryInfo.charStart <= r.value.deliveryInfo.charEnd
      ensures r.Ok? ==> tokens[pos - 1].kind == EndObject
    {
      var record: FieldMap := map[];
      var charStart := CurrentLocation();
      while true
        invariant Valid() && old(pos) <= pos
        invariant Fields(conv, Record, tokens, pos, record) == Fields(conv, Record, tokens, old(pos), map[])
        decreases |tokens| - pos
      {
        ghost var keyAt := pos;
        var k := NextToken();
        if k.Some? && k.value.kind == EndObject {
          break;
        }
        if k.None? || k.value.kind != FieldName {
          assert Fields(conv, Record, tokens, keyAt, record) == Err(Failure(MissingFieldName, pos));
          return Err(MissingFieldName);
        }
        var key := k.value.text;
        var v := ParseRecordField(key);
        if v.Err? {
          assert Fields(conv, Record, tokens, keyAt, record) == Err(Failure(v.error, pos));
          return Err(v.error);
        }
        record := record[key := v.value];
      }
      record := SetAccountId(record);
      var charEnd := CurrentLocation();
      LocationMonotone(tokens, old(pos), pos);
      r := Ok(ClientRecord(record, DeliveryInfo(charStart, charEnd)));
    }

    /** The record's case table for one field whose name has just been read. */
    method ParseRecordField(key: string) returns (r: Result<Value, Error>)
      requires Valid()
      modifies this
      ensures Valid() && old(pos) <= pos
      ensures Agrees(FieldValue(conv, Record, key, tokens, old(pos)), r)
    {
      if key == "eventVersion" {
        var eventVersion := NextTextValue();
        if eventVersion.Null? || !conv.isNumber(eventVersion.text) {
          return Err(BadEventVersion);
        }
        r := Ok(eventVersion);
      } else if key == "userIdentity" {
        r := ParseUserIdentity();
      } else if key == "eventTime" {
        var text := NextTextValue();
        r := ConvertToDate(conv, text);
      } else if key == "eventID" || key == "requestID" {
        var text := NextTextValue();
        r := ConvertToUuid(conv, text);
      } else if key == "readOnly" {
        r := ParseReadOnly();
      } else if key == "resources" {
        r := ParseResources();
      } else {
        r := ParseDefaultValue();
      }
    }
  }

  /** The pass-through rule on an opening token: the text of the run up to its matching close. */
  lemma NestedDefaultValue(toks: seq<Token>, i: nat)
    requires i < |toks| && IsOpen(toks[i].kind)
    ensures match SubtreeEnd(toks, i + 1, 1)
      case None => DefaultValue(toks, i) == Err(Failure(UnclosedValue, |toks|))
      case Some(j) => DefaultValue(toks, i) == Ok(Parsed(Text(Render(toks[i..j])), j))
  {
  }
}
