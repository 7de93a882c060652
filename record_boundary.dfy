/**
 * Where a record ends. The decoder reads every text-typed field with a single "next text
 * value" step, which yields null for an object or array but consumes only its opening
 * token. The record loop then stops at the first object-end token in key position, which
 * may belong to that nested value rather than to the record.
 *
 * This module exhibits that on a concrete stream, then gives the evidently intended
 * reading, where a text field's nested value is consumed whole, and proves that with it a
 * record always ends at the token that closes its own opening brace.
 */
module RecordBoundary {
  import opened Wrappers
  import opened JsonTokens
  import opened Records

  /** Nesting balance is additive over adjacent runs. */
  lemma {:induction false} BalanceSplit(toks: seq<Token>, i: nat, m: nat, n: nat)
    requires i <= m <= n <= |toks|
    ensures Balance(toks[i..n]) == Balance(toks[i..m]) + Balance(toks[m..n])
    decreases m - i
  {
    if i == m {
      assert toks[i..m] == [];
    } else {
      BalanceStep(toks, i, n);
      BalanceStep(toks, i, m);
      BalanceSplit(toks, i + 1, m, n);
    }
  }

  /** The balance of a single token is its depth change. */
  lemma BalanceOne(toks: seq<Token>, i: nat)
    requires i < |toks|
    ensures Balance(toks[i..i + 1]) == Delta(toks[i].kind)
  {
    BalanceStep(toks, i, i + 1);
    assert toks[i + 1..i + 1] == [];
  }

  // ---------------------------------------------------------------------------------------
  // The decoder as written: a text field holding an object ends the record early.
  // ---------------------------------------------------------------------------------------

  /**
   * The tokens of {"eventTime":{"x":1},"eventName":"u"},{}] from a record's opening
   * brace on, each with the character offset just after it.
   */
  function NestedTextTokens(): seq<Token>
  {
    [ Token(StartObject, "{", 1),
      Token(FieldName, "eventTime", 12), Token(StartObject, "{", 14),
      Token(FieldName, "x", 17), Token(NumberValue, "1", 19), Token(EndObject, "}", 20),
      Token(FieldName, "eventName", 32), Token(StringValue, "u", 36),
      Token(EndObject, "}", 37),
      Token(StartObject, "{", 39), Token(EndObject, "}", 40), Token(EndArray, "]", 41) ]
  }

  /** The stretch of NestedTextTokens() the decoder reads, stated on any stream. */
  predicate NestedTextShape(toks: seq<Token>)
  {
    && |toks| > 6
    && toks[0].kind == StartObject && toks[0].offset == 1
    && toks[1].kind == FieldName && toks[1].text == "eventTime"
    && toks[2].kind == StartObject
    && toks[3].kind == FieldName && toks[3].text == "x"
    && toks[4].kind == NumberValue && toks[4].text == "1"
    && toks[5].kind == EndObject && toks[5].offset == 20
    && toks[6].kind == FieldName
  }

  lemma NestedTextFields(conv: Converters, toks: seq<Token>)
    requires NestedTextShape(toks)
    ensures Fields(conv, Record, toks, 1, map[]) == Ok(Parsed(map["eventTime" := Null, "x" := Text("1")], 6))
  {
    assert FieldValue(conv, Record, "eventTime", toks, 2) == Ok(Parsed(Null, 3));
    FieldStep(conv, Record, toks, 1, map[], Parsed(Null, 3));
    assert FieldValue(conv, Record, "x", toks, 4) == Ok(Parsed(Text("1"), 5));
    FieldStep(conv, Record, toks, 3, map["eventTime" := Null], Parsed(Text("1"), 5));
  }

  lemma NestedTextBalance(toks: seq<Token>)
    requires NestedTextShape(toks)
    ensures Balance(toks[0..6]) == 1
  {
    BalanceStep(toks, 0, 6);
    BalanceStep(toks, 1, 6);
    BalanceStep(toks, 2, 6);
    BalanceStep(toks, 3, 6);
    BalanceStep(toks, 4, 6);
    BalanceOne(toks, 5);
  }

  /**
   * As written, a record read from a stream shaped like NestedTextTokens() is
   * {eventTime: null, x: "1"} and ends at the nested object's closing brace, one level
   * deeper than the record's own brace. The next token is a field name, so the following
   * "is there another record" check answers no and the rest of the file is silently dropped.
   */
  lemma NestedTextEndsRecordEarly(conv: Converters, toks: seq<Token>)
    requires NestedTextShape(toks)
    ensures DecodeRecord(conv, toks, 1)
            == Ok(Parsed(ClientRecord(map["eventTime" := Null, "x" := Text("1")], DeliveryInfo(1, 20)), 6))
    ensures Balance(toks[0..6]) == 1
    ensures toks[6].kind == FieldName && !IsOpen(toks[6].kind)
  {
    NestedTextFields(conv, toks);
    NestedTextBalance(toks);
  }

  /** The stream NestedTextTokens() is such a stream. */
  lemma NestedTextTokensShaped()
    ensures NestedTextShape(NestedTextTokens())
  {
  }

  // ---------------------------------------------------------------------------------------
  // The decoder as intended: a text field's nested value is consumed whole.
  // ---------------------------------------------------------------------------------------

  /**
   * A text-typed field read as intended: the same value as the decoder's text read (the
   * string's text, JSON null otherwise), but a nested object or array is consumed up to its
   * matching closing token; one the input leaves open is an error.
   */
  function WholeTextValue(toks: seq<Token>, i: nat): (r: Result<Parsed<Value>, Failure>)
    requires i <= |toks|
    ensures r.Ok? ==> i <= r.value.next <= |toks| && r.value.value == TextValue(toks, i)
    ensures !(i < |toks| && IsOpen(toks[i].kind)) ==> r == Ok(Parsed(TextValue(toks, i), Next(toks, i)))
    ensures r.Err? <==> i < |toks| && IsOpen(toks[i].kind) && SubtreeEnd(toks, i + 1, 1).None?
  {
    if i < |toks| && IsOpen(toks[i].kind) then
      match SubtreeEnd(toks, i + 1, 1)
      case None => Err(Failure(UnclosedValue, |toks|))
      case Some(j) => Ok(Parsed(Null, j))
    else Ok(Parsed(TextValue(toks, i), Next(toks, i)))
  }

  /** The case table of Records.FieldValue with every text-typed field read whole. */
  function WholeFieldValue(conv: Converters, bag: Bag, key: string, toks: seq<Token>, i: nat)
    : (r: Result<Parsed<Value>, Failure>)
    requires i <= |toks|
    ensures r.Ok? ==> i <= r.value.next <= |toks|
    decreases |toks| - i, 3
  {
    match bag
    case Record =>
      if key == "eventVersion" then
        var v := TextValue(toks, i);
        if v.Text? && conv.isNumber(v.text) then Ok(Parsed(v, Next(toks, i)))
        else Err(Failure(BadEventVersion, Next(toks, i)))
      else if key == "userIdentity" then WholeUserIdentityValue(conv, toks, i)
      else if key == "eventTime" then
        var t :- WholeTextValue(toks, i);
        After(ConvertToDate(conv, t.value), t.next)
      else if key == "eventID" || key == "requestID" then After(ConvertToUuid(conv, TextValue(toks, i)), Next(toks, i))
      else if key == "readOnly" then ReadOnlyValue(toks, i)
      else if key == "resources" then WholeResourcesValue(conv, toks, i)
      else DefaultValue(toks, i)
    case Identity =>
      if key == "sessionContext" then WholeObjectValue(conv, Context, toks, i)
      else if key in KnownFields(Identity) then WholeTextValue(toks, i)
      else DefaultValue(toks, i)
    case Context =>
      if key == "attributes" then WholeObjectValue(conv, Attributes, toks, i)
      else if key == "sessionIssuer" then WholeObjectValue(conv, Issuer, toks, i)
      else if key == "webIdFederationData" then WholeObjectValue(conv, WebIdentity, toks, i)
      else DefaultValue(toks, i)
    case WebIdentity =>
      if key == "attributes" then WholeObjectValue(conv, Attributes, toks, i)
      else if key == "federatedProvider" then WholeTextValue(toks, i)
      else DefaultValue(toks, i)
    case Issuer =>
      if key in KnownFields(Issuer) then WholeTextValue(toks, i)
      else DefaultValue(toks, i)
    case Resource => DefaultValue(toks, i)
    case Attributes => WholeTextValue(toks, i)
  }

  function WholeUserIdentityValue(conv: Converters, toks: seq<Token>, i: nat): (r: Result<Parsed<Value>, Failure>)
    requires i <= |toks|
    ensures r.Ok? ==> i < r.value.next <= |toks|
    decreases |toks| - i, 2
  {
    if i < |toks| && toks[i].kind == NullValue then Ok(Parsed(Null, i + 1))
    else WholeObjectValue(conv, Identity, toks, i)
  }

  function WholeResourcesValue(conv: Converters, toks: seq<Token>, i: nat): (r: Result<Parsed<Value>, Failure>)
    requires i <= |toks|
    ensures r.Ok? ==> i < r.value.next <= |toks|
    decreases |toks| - i, 2
  {
    if i < |toks| && toks[i].kind == NullValue then Ok(Parsed(Null, i + 1))
    else if i < |toks| && toks[i].kind == StartArray then WholeResourceItems(conv, toks, i + 1, [])
    else Err(Failure(NotResourceList, Next(toks, i)))
  }

  function WholeObjectValue(conv: Converters, bag: Bag, toks: seq<Token>, i: nat): (r: Result<Parsed<Value>, Failure>)
    requires i <= |toks|
    ensures r.Ok? ==> i < r.value.next <= |toks| && toks[i].kind == StartObject
    decreases |toks| - i, 1
  {
    if i < |toks| && toks[i].kind == StartObject then
      var p :- WholeFields(conv, bag, toks, i + 1, map[]);
      Ok(Parsed(Object(bag, p.value), p.next))
    else Err(Failure(NotAnObject(bag), Next(toks, i)))
  }

  function WholeFields(conv: Converters, bag: Bag, toks: seq<Token>, i: nat, acc: FieldMap)
    : (r: Result<Parsed<FieldMap>, Failure>)
    requires i <= |toks|
    ensures r.Ok? ==> i < r.value.next <= |toks| && toks[r.value.next - 1].kind == EndObject
    decreases |toks| - i, 0
  {
    if i == |toks| then Err(Failure(MissingFieldName, i))
    else if toks[i].kind == EndObject then Ok(Parsed(acc, i + 1))
    else if toks[i].kind != FieldName then Err(Failure(MissingFieldName, i + 1))
    else
      var key := toks[i].text;
      var v :- WholeFieldValue(conv, bag, key, toks, i + 1);
      WholeFields(conv, bag, toks, v.next, acc[key := v.value])
  }

  function WholeResourceItems(conv: Converters, toks: seq<Token>, i: nat, acc: seq<FieldMap>)
    : (r: Result<Parsed<Value>, Failure>)
    requires i <= |toks|
    ensures r.Ok? ==> i < r.value.next <= |toks|
    decreases |toks| - i, 0
  {
    if i < |toks| && toks[i].kind == EndArray then Ok(Parsed(ResourceList(acc), i + 1))
    else if i < |toks| && toks[i].kind == StartObject then
      var p :- WholeFields(conv, Resource, toks, i + 1, map[]);
      WholeResourceItems(conv, toks, p.next, acc + [p.value])
    else Err(Failure(NotAnObject(Resource), Next(toks, i)))
  }

  /** Records.DecodeRecord with every text-typed field read whole. */
  function WholeDecodeRecord(conv: Converters, toks: seq<Token>, i: nat): (r: Result<Parsed<ClientRecord>, Failure>)
    requires i <= |toks|
    ensures r.Ok? ==> i < r.value.next <= |toks| && toks[r.value.next - 1].kind == EndObject
    ensures r.Ok? ==> r.value.value.deliveryInfo == DeliveryInfo(Location(toks, i), Location(toks, r.value.next))
  {
    var p :- WholeFields(conv, Record, toks, i, map[]);
    Ok(Parsed(ClientRecord(SetAccountId(p.value), DeliveryInfo(Location(toks, i), Location(toks, p.next))), p.next))
  }

  // ---------------------------------------------------------------------------------------
  // With values read whole, a record ends at its own closing brace.
  // ---------------------------------------------------------------------------------------

  /** The JSON grammar, as the tokenizer enforces it: a field name is never followed by a closing token. */
ghost predicate ValuesFollowNames(toks: seq<Token>)
  {
    forall k :: ValueFollowsName(toks, k)
  }

  /** The grammar fact at one position: a field name at `k` is not followed by a closing token. */
  ghost predicate ValueFollowsName(toks: seq<Token>, k: nat)
  {
    k + 1 < |toks| && toks[k].kind == FieldName ==> !IsClose(toks[k + 1].kind)
  }

  /** toks[i..n] is whole values: it closes nothing it did not open, and nothing is left open. */
  ghost predicate WholeRun(toks: seq<Token>, i: nat, n: nat)
    requires i <= n <= |toks|
  {
    Balance(toks[i..n]) == 0 && forall k :: i <= k <= n ==> Balance(toks[i..k]) >= 0
  }

  /** toks[i..n] finishes one enclosing container: its last token, and no earlier one, closes it. */
  ghost predicate ClosingRun(toks: seq<Token>, i: nat, n: nat)
    requires i <= n <= |toks|
  {
    Balance(toks[i..n]) == -1 && forall k :: i <= k < n ==> Balance(toks[i..k]) >= 0
  }

  lemma EmptyRun(toks: seq<Token>, i: nat)
    requires i <= |toks|
    ensures WholeRun(toks, i, i)
  {
    assert toks[i..i] == [];
  }

  lemma ScalarRun(toks: seq<Token>, i: nat)
    requires i < |toks| && !IsOpen(toks[i].kind) && !IsClose(toks[i].kind)
    ensures WholeRun(toks, i, i + 1)
  {
    BalanceOne(toks, i);
    assert toks[i..i] == [];
  }

  lemma CloseRun(toks: seq<Token>, i: nat)
    requires i < |toks| && IsClose(toks[i].kind)
    ensures ClosingRun(toks, i, i + 1)
  {
    BalanceOne(toks, i);
    assert toks[i..i] == [];
  }

  /** Whole values followed by the end of the enclosing container end that container. */
  lemma ThenClose(toks: seq<Token>, i: nat, m: nat, n: nat)
    requires i <= m <= n <= |toks| && WholeRun(toks, i, m) && ClosingRun(toks, m, n)
    ensures ClosingRun(toks, i, n)
  {
    BalanceSplit(toks, i, m, n);
    forall k | m <= k < n
      ensures Balance(toks[i..k]) >= 0
    {
      BalanceSplit(toks, i, m, k);
    }
  }

  /** A field name, which leaves the depth alone, in front of a whole value. */
  lemma NameThenValue(toks: seq<Token>, i: nat, m: nat)
    requires i < m <= |toks| && toks[i].kind == FieldName && WholeRun(toks, i + 1, m)
    ensures WholeRun(toks, i, m)
  {
    BalanceStep(toks, i, m);
    assert toks[i..i] == [];
    forall k | i < k <= m
      ensures Balance(toks[i..k]) >= 0
    {
      BalanceStep(toks, i, k);
    }
  }

  /** An opening token followed by a run that closes it: a value, open at every proper prefix. */
  lemma Enclosed(toks: seq<Token>, i: nat, n: nat)
    requires i < n <= |toks| && IsOpen(toks[i].kind) && ClosingRun(toks, i + 1, n)
    ensures WholeRun(toks, i, n)
    ensures forall k :: i < k < n ==> Balance(toks[i..k]) > 0
  {
    BalanceStep(toks, i, n);
    assert toks[i..i] == [];
    forall k | i < k <= n
      ensures Balance(toks[i..k]) == 1 + Balance(toks[i + 1..k])
    {
      BalanceStep(toks, i, k);
    }
  }

  lemma WholeTextRun(toks: seq<Token>, i: nat)
    requires i <= |toks| && (i < |toks| ==> !IsClose(toks[i].kind)) && WholeTextValue(toks, i).Ok?
    ensures WholeRun(toks, i, WholeTextValue(toks, i).value.next)
  {
    if i == |toks| {
      EmptyRun(toks, i);
    } else if IsOpen(toks[i].kind) {
      MatchingClose(toks, i);
    } else {
      ScalarRun(toks, i);
    }
  }

  lemma DefaultRun(toks: seq<Token>, i: nat)
    requires i <= |toks| && (i < |toks| ==> !IsClose(toks[i].kind)) && DefaultValue(toks, i).Ok?
    ensures WholeRun(toks, i, DefaultValue(toks, i).value.next)
  {
    if i == |toks| {
      EmptyRun(toks, i);
    } else if IsOpen(toks[i].kind) {
      MatchingClose(toks, i);
    } else {
      ScalarRun(toks, i);
    }
  }

  /** Every field value read as intended is whole values. */
  lemma FieldValueRun(conv: Converters, bag: Bag, key: string, toks: seq<Token>, i: nat)
    requires i <= |toks| && (i < |toks| ==> !IsClose(toks[i].kind)) && ValuesFollowNames(toks)
    requires WholeFieldValue(conv, bag, key, toks, i).Ok?
    ensures WholeRun(toks, i, WholeFieldValue(conv, bag, key, toks, i).value.next)
    decreases |toks| - i, 3
  {
    var r := WholeFieldValue(conv, bag, key, toks, i);
    if bag == Record && key == "userIdentity" {
      UserIdentityRun(conv, toks, i);
    } else if bag == Record && key == "resources" {
      ResourcesRun(conv, toks, i);
    } else if bag == Record && key == "eventTime" {
      WholeTextRun(toks, i);
    } else if bag == Record && key in {"eventVersion", "eventID", "requestID", "readOnly"} {
      ScalarRun(toks, i);
    } else if (bag == Identity && key == "sessionContext") || (bag == Context && key == "attributes") {
      ObjectRun(conv, if bag == Identity then Context else Attributes, toks, i);
    } else if bag == Context && key == "sessionIssuer" {
      ObjectRun(conv, Issuer, toks, i);
    } else if bag == Context && key == "webIdFederationData" {
      ObjectRun(conv, WebIdentity, toks, i);
    } else if bag == WebIdentity && key == "attributes" {
      ObjectRun(conv, Attributes, toks, i);
    } else if r == WholeTextValue(toks, i) {
      WholeTextRun(toks, i);
    } else {
      DefaultRun(toks, i);
    }
  }

  lemma UserIdentityRun(conv: Converters, toks: seq<Token>, i: nat)
    requires i <= |toks| && ValuesFollowNames(toks) && WholeUserIdentityValue(conv, toks, i).Ok?
    ensures WholeRun(toks, i, WholeUserIdentityValue(conv, toks, i).value.next)
    decreases |toks| - i, 2
  {
    if toks[i].kind == NullValue {
      ScalarRun(toks, i);
    } else {
      ObjectRun(conv, Identity, toks, i);
    }
  }

  lemma ResourcesRun(conv: Converters, toks: seq<Token>, i: nat)
    requires i <= |toks| && ValuesFollowNames(toks) && WholeResourcesValue(conv, toks, i).Ok?
    ensures WholeRun(toks, i, WholeResourcesValue(conv, toks, i).value.next)
    decreases |toks| - i, 2
  {
    if toks[i].kind == NullValue {
      ScalarRun(toks, i);
    } else {
      ResourceItemsRun(conv, toks, i + 1, []);
      Enclosed(toks, i, WholeResourcesValue(conv, toks, i).value.next);
    }
  }

  /** A sub-structure read as intended runs from its opening brace to the brace that closes it. */
  lemma ObjectRun(conv: Converters, bag: Bag, toks: seq<Token>, i: nat)
    requires i <= |toks| && ValuesFollowNames(toks) && WholeObjectValue(conv, bag, toks, i).Ok?
    ensures var n := WholeObjectValue(conv, bag, toks, i).value.next;
      && WholeRun(toks, i, n)
      && forall k :: i < k < n ==> Balance(toks[i..k]) > 0
    decreases |toks| - i, 1
  {
    FieldsRun(conv, bag, toks, i + 1, map[]);
    Enclosed(toks, i, WholeObjectValue(conv, bag, toks, i).value.next);
  }

  /** The field loop read as intended ends at the closing token of its own object. */
  lemma {:induction false} FieldsRun(conv: Converters, bag: Bag, toks: seq<Token>, i: nat, acc: FieldMap)
    requires i <= |toks| && ValuesFollowNames(toks) && WholeFields(conv, bag, toks, i, acc).Ok?
    ensures ClosingRun(toks, i, WholeFields(conv, bag, toks, i, acc).value.next)
    decreases |toks| - i, 0
  {
    if toks[i].kind == EndObject {
      CloseRun(toks, i);
    } else {
      var key := toks[i].text;
      var v := WholeFieldValue(conv, bag, key, toks, i + 1).value;
      var n := WholeFields(conv, bag, toks, v.next, acc[key := v.value]).value.next;
      assert ValueFollowsName(toks, i);
      FieldValueRun(conv, bag, key, toks, i + 1);
      NameThenValue(toks, i, v.next);
      FieldsRun(conv, bag, toks, v.next, acc[key := v.value]);
      ThenClose(toks, i, v.next, n);
    }
  }

  lemma {:induction false} ResourceItemsRun(conv: Converters, toks: seq<Token>, i: nat, acc: seq<FieldMap>)
    requires i <= |toks| && ValuesFollowNames(toks) && WholeResourceItems(conv, toks, i, acc).Ok?
    ensures ClosingRun(toks, i, WholeResourceItems(conv, toks, i, acc).value.next)
    decreases |toks| - i, 0
  {
    if toks[i].kind == EndArray {
      CloseRun(toks, i);
    } else {
      var p := WholeFields(conv, Resource, toks, i + 1, map[]).value;
      var n := WholeResourceItems(conv, toks, p.next, acc + [p.value]).value.next;
      FieldsRun(conv, Resource, toks, i + 1, map[]);
      Enclosed(toks, i, p.next);
      ResourceItemsRun(conv, toks, p.next, acc + [p.value]);
      ThenClose(toks, i, p.next, n);
    }
  }

  /** Scanning from inside a container over a closing run stops exactly at the run's end. */
  lemma {:induction false} ScanStopsAtRunEnd(toks: seq<Token>, i: nat, j: nat, n: nat)
    requires i <= j < n <= |toks| && ClosingRun(toks, i, n)
    ensures SubtreeEnd(toks, j, 1 + Balance(toks[i..j])) == Some(n)
    decreases n - j
  {
    BalanceSplit(toks, i, j, j + 1);
    BalanceOne(toks, j);
    if j + 1 < n {
      ScanStopsAtRunEnd(toks, i, j + 1, n);
    }
  }

  /** An opening token and a run that closes it: the close is the one that matches the opening token. */
  lemma ClosedByOwnToken(toks: seq<Token>, s: nat, n: nat)
    requires s < n <= |toks| && IsOpen(toks[s].kind) && ClosingRun(toks, s + 1, n)
    ensures Balance(toks[s..n]) == 0
    ensures forall k :: s < k < n ==> Balance(toks[s..k]) > 0
    ensures SubtreeEnd(toks, s + 1, 1) == Some(n)
  {
    Enclosed(toks, s, n);
    assert Balance(toks[s + 1..s + 1]) == 0 by {
      assert toks[s + 1..s + 1] == [];
    }
    ScanStopsAtRunEnd(toks, s + 1, s + 1, n);
  }

  /** An object whose fields are read as intended ends at the token that closes its brace `s`. */
  lemma ObjectEndsAtOwnBrace(conv: Converters, bag: Bag, toks: seq<Token>, s: nat)
    requires s < |toks| && toks[s].kind == StartObject && ValuesFollowNames(toks)
    requires WholeFields(conv, bag, toks, s + 1, map[]).Ok?
    ensures var n := WholeFields(conv, bag, toks, s + 1, map[]).value.next;
      && Balance(toks[s..n]) == 0
      && (forall k :: s < k < n ==> Balance(toks[s..k]) > 0)
      && SubtreeEnd(toks, s + 1, 1) == Some(n)
  {
    FieldsRun(conv, bag, toks, s + 1, map[]);
    ClosedByOwnToken(toks, s, WholeFields(conv, bag, toks, s + 1, map[]).value.next);
  }

  /**
   * With text-typed fields read whole, a record whose opening brace is token `s` ends at the
   * token that closes that brace: the run from the brace to the end cursor is balanced,
   * still open at every earlier cursor, and ends exactly where consuming the brace's whole
   * subtree ends.
   */
  lemma RecordEndsAtOwnBrace(conv: Converters, toks: seq<Token>, s: nat)
    requires s < |toks| && toks[s].kind == StartObject && ValuesFollowNames(toks)
    requires WholeDecodeRecord(conv, toks, s + 1).Ok?
    ensures var n := WholeDecodeRecord(conv, toks, s + 1).value.next;
      && toks[n - 1].kind == EndObject
      && Balance(toks[s..n]) == 0
      && (forall k :: s < k < n ==> Balance(toks[s..k]) > 0)
      && SubtreeEnd(toks, s + 1, 1) == Some(n)
  {
    var p := WholeFields(conv, Record, toks, s + 1, map[]);
    assert p.Ok? && WholeDecodeRecord(conv, toks, s + 1).value.next == p.value.next;
    FieldsRun(conv, Record, toks, s + 1, map[]);
    ClosedByOwnToken(toks, s, p.value.next);
  }

  // ---------------------------------------------------------------------------------------
  // Where the two readings coincide: resources have no text-typed fields.
  // ---------------------------------------------------------------------------------------

  /** Every field of a resource goes through the pass-through rule, so both readings agree on it. */
  lemma {:induction false} ResourceFieldsAgree(conv: Converters, toks: seq<Token>, i: nat, acc: FieldMap)
    requires i <= |toks|
    ensures Fields(conv, Resource, toks, i, acc) == WholeFields(conv, Resource, toks, i, acc)
    decreases |toks| - i
  {
    if i < |toks| && toks[i].kind == FieldName {
      var key := toks[i].text;
      var v := DefaultValue(toks, i + 1);
      assert FieldValue(conv, Resource, key, toks, i + 1) == v == WholeFieldValue(conv, Resource, key, toks, i + 1);
      if v.Ok? {
        FieldStep(conv, Resource, toks, i, acc, v.value);
        ResourceFieldsAgree(conv, toks, v.value.next, acc[key := v.value.value]);
      }
    }
  }

  /** Both readings agree on the elements of a resources array. */
  lemma {:induction false} ResourceItemsAgree(conv: Converters, toks: seq<Token>, i: nat, acc: seq<FieldMap>)
    requires i <= |toks|
    ensures ResourceItems(conv, toks, i, acc) == WholeResourceItems(conv, toks, i, acc)
    decreases |toks| - i
  {
    if i < |toks| && toks[i].kind == StartObject {
      ResourceFieldsAgree(conv, toks, i + 1, map[]);
      var p := Fields(conv, Resource, toks, i + 1, map[]);
      if p.Ok? {
        ResourceItemStep(conv, toks, i, acc, p.value);
        ResourceItemsAgree(conv, toks, p.value.next, acc + [p.value.value]);
      }
    }
  }

  /**
   * As written, one resource whose opening brace is token `s` ends at the token that closes
   * that brace: balanced, open at every earlier cursor, where consuming its subtree ends.
   */
  lemma ResourceEndsAtOwnBrace(conv: Converters, toks: seq<Token>, s: nat)
    requires s < |toks| && toks[s].kind == StartObject && ValuesFollowNames(toks)
    requires Fields(conv, Resource, toks, s + 1, map[]).Ok?
    ensures var n := Fields(conv, Resource, toks, s + 1, map[]).value.next;
      && toks[n - 1].kind == EndObject
      && Balance(toks[s..n]) == 0
      && (forall k :: s < k < n ==> Balance(toks[s..k]) > 0)
      && SubtreeEnd(toks, s + 1, 1) == Some(n)
  {
    ResourceFieldsAgree(conv, toks, s + 1, map[]);
    var n := WholeFields(conv, Resource, toks, s + 1, map[]).value.next;
    FieldsRun(conv, Resource, toks, s + 1, map[]);
    ClosedByOwnToken(toks, s, n);
  }

  /**
   * As written, a resources array whose opening bracket is token `s` ends at the token that
   * closes that bracket: balanced, open at every earlier cursor, where consuming its subtree ends.
   */
  lemma ResourcesEndAtOwnBracket(conv: Converters, toks: seq<Token>, s: nat)
    requires s < |toks| && toks[s].kind == StartArray && ValuesFollowNames(toks)
    requires ResourceItems(conv, toks, s + 1, []).Ok?
    ensures var n := ResourceItems(conv, toks, s + 1, []).value.next;
      && toks[n - 1].kind == EndArray
      && Balance(toks[s..n]) == 0
      && (forall k :: s < k < n ==> Balance(toks[s..k]) > 0)
      && SubtreeEnd(toks, s + 1, 1) == Some(n)
  {
    ResourceItemsAgree(conv, toks, s + 1, []);
    ResourceItemsRun(conv, toks, s + 1, []);
    ClosedByOwnToken(toks, s, ResourceItems(conv, toks, s + 1, []).value.next);
  }
}
