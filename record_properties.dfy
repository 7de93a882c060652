/**
 * Properties of the record decoding rules: what the pass-through rule consumes and keeps,
 * which structures hold only text, the order of resources, duplicate attribute names,
 * the accountId precedence and the ordering of a record's character offsets.
 */
module RecordProperties {
  import opened Wrappers
  import opened JsonTokens
  import opened Records

  /** Every value of a structure is text or JSON null. */
  ghost predicate AllText(m: FieldMap)
  {
    forall k :: k in m ==> m[k].Null? || m[k].Text?
  }

  /**
   * The pass-through rule: null gives null after one token; a nested object or array is
   * consumed up to and including its matching closing token and kept as the text of exactly
   * that run of tokens; any other token gives its string form after one token.
   */
  lemma DefaultValueCases(toks: seq<Token>, i: nat)
    requires i < |toks|
    ensures toks[i].kind == NullValue ==> DefaultValue(toks, i) == Ok(Parsed(Null, i + 1))
    ensures !IsOpen(toks[i].kind) && !IsClose(toks[i].kind) && toks[i].kind != NullValue ==>
      DefaultValue(toks, i) == Ok(Parsed(Text(toks[i].text), i + 1))
    ensures IsOpen(toks[i].kind) && DefaultValue(toks, i).Ok? ==>
      var j := DefaultValue(toks, i).value.next;
      && i < j
      && IsClose(toks[j - 1].kind)
      && Balance(toks[i..j]) == 0
      && (forall k :: i < k < j ==> Balance(toks[i..k]) > 0)
      && DefaultValue(toks, i).value.value == Text(Render(toks[i..j]))
  {
    if IsOpen(toks[i].kind) && DefaultValue(toks, i).Ok? {
      var j := SubtreeEnd(toks, i + 1, 1).value;
      assert DefaultValue(toks, i) == Ok(Parsed(Text(Render(toks[i..j])), j));
      MatchingClose(toks, i);
    }
  }

  /** A nested value the input leaves open is an error, never a truncated text. */
  lemma DefaultValueUnclosed(toks: seq<Token>, i: nat)
    requires i < |toks| && IsOpen(toks[i].kind) && SubtreeEnd(toks, i + 1, 1).None?
    ensures DefaultValue(toks, i) == Err(Failure(UnclosedValue, |toks|))
  {
  }

  /**
   * Session issuers, resources and attribute maps hold only text or null: their fields are
   * all read as string text or through the pass-through rule.
   */
  lemma {:induction false} FlatStructuresHoldText(conv: Converters, bag: Bag, toks: seq<Token>, i: nat, acc: FieldMap)
    requires bag == Issuer || bag == Resource || bag == Attributes
    requires i <= |toks| && AllText(acc) && Fields(conv, bag, toks, i, acc).Ok?
    ensures AllText(Fields(conv, bag, toks, i, acc).value.value)
    decreases |toks| - i
  {
    if toks[i].kind == FieldName {
      var key := toks[i].text;
      var v := FieldValue(conv, bag, key, toks, i + 1).value;
      assert v.value.Null? || v.value.Text?;
      FlatStructuresHoldText(conv, bag, toks, v.next, acc[key := v.value]);
    }
  }

  /** A resources result with `acc` put in front of its items; errors are left alone. */
  function Prepended(acc: seq<FieldMap>, r: Result<Parsed<Value>, Failure>): Result<Parsed<Value>, Failure>
  {
    match r
    case Ok(p) => if p.value.ResourceList? then Ok(Parsed(ResourceList(acc + p.value.items), p.next)) else r
    case Err(_) => r
  }

  /**
   * The resources list is built by appending each element's resource in array order:
   * decoding after earlier resources gives those resources followed by what decoding the
   * rest alone gives, with the same end cursor, and fails exactly when that fails.
   */
  lemma {:induction false} ResourcesInArrayOrder(conv: Converters, toks: seq<Token>, i: nat, acc: seq<FieldMap>)
    requires i <= |toks|
    ensures ResourceItems(conv, toks, i, acc) == Prepended(acc, ResourceItems(conv, toks, i, []))
    decreases |toks| - i
  {
    if i < |toks| && toks[i].kind == EndArray {
      assert ResourceItems(conv, toks, i, []) == Ok(Parsed(ResourceList([]), i + 1));
      assert acc + [] == acc;
    } else if i < |toks| && toks[i].kind == StartObject {
      var f := Fields(conv, Resource, toks, i + 1, map[]);
      if f.Ok? {
        var p := f.value;
        var rest := ResourceItems(conv, toks, p.next, []);
        calc {
          ResourceItems(conv, toks, i, acc);
          { ResourceItemStep(conv, toks, i, acc, p); }
          ResourceItems(conv, toks, p.next, acc + [p.value]);
          { ResourcesInArrayOrder(conv, toks, p.next, acc + [p.value]); }
          Prepended(acc + [p.value], rest);
          { if rest.Ok? && rest.value.value.ResourceList? {
              assert acc + [p.value] + rest.value.value.items == acc + ([p.value] + rest.value.value.items);
            } }
          Prepended(acc, Prepended([p.value], rest));
          { ResourcesInArrayOrder(conv, toks, p.next, [p.value]); }
          Prepended(acc, ResourceItems(conv, toks, p.next, [p.value]));
          { ResourceItemStep(conv, toks, i, [], p); assert [] + [p.value] == [p.value]; }
          Prepended(acc, ResourceItems(conv, toks, i, []));
        }
      } else {
        assert ResourceItems(conv, toks, i, []) == Err(f.error);
      }
    } else {
      assert ResourceItems(conv, toks, i, []) == Err(Failure(NotAnObject(Resource), Next(toks, i)));
    }
  }

  /** Every resource in a decoded resources list holds only text or null. */
  lemma {:induction false} ResourcesHoldText(conv: Converters, toks: seq<Token>, i: nat, acc: seq<FieldMap>)
    requires i <= |toks| && (forall k :: 0 <= k < |acc| ==> AllText(acc[k]))
    requires ResourceItems(conv, toks, i, acc).Ok?
    ensures var items := ResourceItems(conv, toks, i, acc).value.value.items;
      forall k :: 0 <= k < |items| ==> AllText(items[k])
    decreases |toks| - i
  {
    if i < |toks| && toks[i].kind == StartObject {
      var p := Fields(conv, Resource, toks, i + 1, map[]).value;
      FlatStructuresHoldText(conv, Resource, toks, i + 1, map[]);
      ResourcesHoldText(conv, toks, p.next, acc + [p.value]);
    }
  }

  /** resources: null gives null and [] gives an empty list, each kept under its name. */
  lemma ResourcesNullOrEmpty(conv: Converters, toks: seq<Token>, i: nat)
    requires i + 1 < |toks|
    ensures toks[i].kind == NullValue ==> ResourcesValue(conv, toks, i) == Ok(Parsed(Null, i + 1))
    ensures toks[i].kind == StartArray && toks[i + 1].kind == EndArray ==>
      ResourcesValue(conv, toks, i) == Ok(Parsed(ResourceList([]), i + 2))
    ensures !(toks[i].kind in {NullValue, StartArray}) ==> ResourcesValue(conv, toks, i) == Err(Failure(NotResourceList, i + 1))
  {
  }

  /**
   * Forward compatibility: in every structure but an attribute map, a name outside the
   * field registry is read by the pass-through rule, so it is kept rather than dropped.
   */
  lemma UnknownFieldsPassThrough(conv: Converters, bag: Bag, key: string, toks: seq<Token>, i: nat)
    requires i <= |toks| && bag != Attributes && key !in KnownFields(bag)
    ensures FieldValue(conv, bag, key, toks, i) == DefaultValue(toks, i)
  {
  }

  /**
   * A field is kept under its own name whatever its value: when the field loop succeeds,
   * the name read at its cursor is in the result, with the value the case table gave it
   * unless a later field of the same name replaced it.
   */
  lemma {:induction false} FieldKept(conv: Converters, bag: Bag, toks: seq<Token>, i: nat, acc: FieldMap)
    requires i < |toks| && toks[i].kind == FieldName && Fields(conv, bag, toks, i, acc).Ok?
    ensures var v := FieldValue(conv, bag, toks[i].text, toks, i + 1);
      && v.Ok?
      && Fields(conv, bag, toks, i, acc) == Fields(conv, bag, toks, v.value.next, acc[toks[i].text := v.value.value])
      && toks[i].text in Fields(conv, bag, toks, i, acc).value.value
  {
  }

  /** readOnly: explicit null is kept as a present null, distinct from an absent field. */
  lemma ReadOnlyNullIsPresent(conv: Converters, toks: seq<Token>, i: nat, acc: FieldMap)
    requires i + 1 < |toks| && toks[i] .kind == FieldName && toks[i].text == "readOnly"
    requires toks[i + 1].kind == NullValue
    ensures Fields(conv, Record, toks, i, acc) == Fields(conv, Record, toks, i + 2, acc["readOnly" := Null])
    ensures Fields(conv, Record, toks, i, acc).Ok? ==> "readOnly" in Fields(conv, Record, toks, i, acc).value.value
  {
  }

  /** In an attribute map a later field of the same name replaces the earlier one. */
  lemma LaterAttributeWins(conv: Converters, toks: seq<Token>, i: nat, acc: FieldMap, name: string)
    requires i + 4 <= |toks|
    requires toks[i].kind == FieldName && toks[i + 2].kind == FieldName
    requires toks[i].text == name && toks[i + 2].text == name
    requires toks[i + 3].kind == StringValue
    ensures Fields(conv, Attributes, toks, i, acc) == Fields(conv, Attributes, toks, i + 4, acc[name := Text(toks[i + 3].text)])
  {
    var first := TextValue(toks, i + 1);
    assert Fields(conv, Attributes, toks, i, acc) == Fields(conv, Attributes, toks, i + 2, acc[name := first]);
    assert Fields(conv, Attributes, toks, i + 2, acc[name := first])
        == Fields(conv, Attributes, toks, i + 4, acc[name := first][name := Text(toks[i + 3].text)]);
    assert acc[name := first][name := Text(toks[i + 3].text)] == acc[name := Text(toks[i + 3].text)];
  }

  /**
   * A name the loop does not read again as one of the object's own keys keeps its value:
   * when none of the key cursors from `i` on carries `key`, the loop's result holds for
   * `key` what `acc` held. Names inside the values read in between do not matter.
   */
  lemma {:induction false} NameNotReadAgainKept(conv: Converters, bag: Bag, toks: seq<Token>, i: nat, acc: FieldMap, key: string)
    requires i <= |toks| && key in acc && Fields(conv, bag, toks, i, acc).Ok?
    requires forall k :: k in KeyCursors(conv, bag, toks, i) ==> toks[k].text != key
    ensures key in Fields(conv, bag, toks, i, acc).value.value
    ensures Fields(conv, bag, toks, i, acc).value.value[key] == acc[key]
    decreases |toks| - i
  {
    if toks[i].kind == FieldName {
      var name := toks[i].text;
      var v := FieldValue(conv, bag, name, toks, i + 1).value;
      FieldStep(conv, bag, toks, i, acc, v);
      KeyCursorsStep(conv, bag, toks, i, v);
      NameNotReadAgainKept(conv, bag, toks, v.next, acc[name := v.value], key);
    }
  }

  /**
   * The last occurrence of a name wins, at any distance: when the key read at cursor `i` is
   * not repeated by a later key of the same object, the result holds the value read at `i`,
   * whatever came before it and whatever names its nested values use.
   */
  lemma LastOccurrenceWins(conv: Converters, bag: Bag, toks: seq<Token>, i: nat, acc: FieldMap)
    requires i < |toks| && toks[i].kind == FieldName && Fields(conv, bag, toks, i, acc).Ok?
    requires forall k :: k in KeyCursors(conv, bag, toks, i) && k != i ==> toks[k].text != toks[i].text
    ensures var v := FieldValue(conv, bag, toks[i].text, toks, i + 1);
      && v.Ok?
      && Fields(conv, bag, toks, i, acc).value.value[toks[i].text] == v.value.value
  {
    var key := toks[i].text;
    FieldKept(conv, bag, toks, i, acc);
    var v := FieldValue(conv, bag, key, toks, i + 1).value;
    KeyCursorsStep(conv, bag, toks, i, v);
    NameNotReadAgainKept(conv, bag, toks, v.next, acc[key := v.value], key);
  }

  /** The names read at a set of cursors. */
  function NamesAt(toks: seq<Token>, ks: set<nat>): set<string>
  {
    set k | k in ks && k < |toks| :: toks[k].text
  }

  /** One key read: the loop's key cursors are that cursor and those of the loop after its value. */
  lemma KeyCursorsStep(conv: Converters, bag: Bag, toks: seq<Token>, i: nat, v: Parsed<Value>)
    requires i < |toks| && toks[i].kind == FieldName
    requires FieldValue(conv, bag, toks[i].text, toks, i + 1) == Ok(v)
    ensures v.next <= |toks|
    ensures KeyCursors(conv, bag, toks, i) == {i} + KeyCursors(conv, bag, toks, v.next)
  {
  }

  lemma NamesAtAdd(toks: seq<Token>, i: nat, ks: set<nat>)
    requires i < |toks|
    ensures NamesAt(toks, {i} + ks) == {toks[i].text} + NamesAt(toks, ks)
  {
  }

  /**
   * The key cursors are exactly where the result's names come from: a successful loop
   * yields the names of `acc` together with the names read at its key cursors.
   */
  lemma {:induction false} KeysReadAtKeyCursors(conv: Converters, bag: Bag, toks: seq<Token>, i: nat, acc: FieldMap)
    requires i <= |toks| && Fields(conv, bag, toks, i, acc).Ok?
    ensures Fields(conv, bag, toks, i, acc).value.value.Keys == acc.Keys + NamesAt(toks, KeyCursors(conv, bag, toks, i))
    decreases |toks| - i
  {
    if toks[i].kind == FieldName {
      var v := FieldValue(conv, bag, toks[i].text, toks, i + 1).value;
      var later := KeyCursors(conv, bag, toks, v.next);
      FieldStep(conv, bag, toks, i, acc, v);
      KeyCursorsStep(conv, bag, toks, i, v);
      KeysReadAtKeyCursors(conv, bag, toks, v.next, acc[toks[i].text := v.value]);
      NamesAtAdd(toks, i, later);
    } else {
      assert KeyCursors(conv, bag, toks, i) == {};
    }
  }

  /**
   * Where a failed record stopped: the failure cursor lies between the record's opening
   * brace and the end of input, and the tokenizer's character offset there is at or after
   * the record's start offset, so the failure is located inside the record's text or at
   * the end of the file.
   */
  lemma DecodeFailureLocated(conv: Converters, toks: seq<Token>, i: nat)
    requires OffsetsAscending(toks) && i <= |toks| && DecodeRecord(conv, toks, i).Err?
    ensures var at := DecodeRecord(conv, toks, i).error.at;
      && i <= at <= |toks|
      && Location(toks, i) <= Location(toks, at)
  {
    LocationMonotone(toks, i, DecodeRecord(conv, toks, i).error.at);
  }

  /** eventTime: a null or non-string value gives a null date; text the format rejects is an error. */
  lemma EventTimeConversion(conv: Converters, toks: seq<Token>, i: nat)
    requires i < |toks|
    ensures toks[i].kind != StringValue ==> FieldValue(conv, Record, "eventTime", toks, i) == Ok(Parsed(Null, i + 1))
    ensures toks[i].kind == StringValue && conv.toDate(toks[i].text).None? ==>
      FieldValue(conv, Record, "eventTime", toks, i) == Err(Failure(BadDate(toks[i].text), i + 1))
    ensures toks[i].kind == StringValue && conv.toDate(toks[i].text).Some? ==>
      FieldValue(conv, Record, "eventTime", toks, i) == Ok(Parsed(Time(conv.toDate(toks[i].text).value), i + 1))
  {
  }

  /** eventID and requestID: a missing, non-string or malformed identifier is an error. */
  lemma IdentifierConversion(conv: Converters, key: string, toks: seq<Token>, i: nat)
    requires i < |toks| && (key == "eventID" || key == "requestID")
    ensures FieldValue(conv, Record, key, toks, i).Ok? <==>
      toks[i].kind == StringValue && conv.toUuid(toks[i].text).Some?
    ensures FieldValue(conv, Record, key, toks, i).Err? ==> FieldValue(conv, Record, key, toks, i).error == Failure(BadUuid, i + 1)
  {
  }

  /** eventVersion: the text is kept unchanged whatever version it names, once it parses as a number. */
  lemma EventVersionKeptAsText(conv: Converters, toks: seq<Token>, i: nat)
    requires i < |toks|
    ensures FieldValue(conv, Record, "eventVersion", toks, i).Ok? <==>
      toks[i].kind == StringValue && conv.isNumber(toks[i].text)
    ensures FieldValue(conv, Record, "eventVersion", toks, i).Ok? ==>
      FieldValue(conv, Record, "eventVersion", toks, i) == Ok(Parsed(Text(toks[i].text), i + 1))
  {
  }

  /** Sub-structures: userIdentity may be null, the nested ones must be objects. */
  lemma SubStructureShapes(conv: Converters, toks: seq<Token>, i: nat)
    requires i < |toks|
    ensures toks[i].kind == NullValue ==> UserIdentityValue(conv, toks, i) == Ok(Parsed(Null, i + 1))
    ensures toks[i].kind != NullValue && toks[i].kind != StartObject ==>
      && UserIdentityValue(conv, toks, i) == Err(Failure(NotAnObject(Identity), i + 1))
      && FieldValue(conv, Identity, "sessionContext", toks, i) == Err(Failure(NotAnObject(Context), i + 1))
      && FieldValue(conv, Context, "sessionIssuer", toks, i) == Err(Failure(NotAnObject(Issuer), i + 1))
      && FieldValue(conv, Context, "webIdFederationData", toks, i) == Err(Failure(NotAnObject(WebIdentity), i + 1))
      && FieldValue(conv, Context, "attributes", toks, i) == Err(Failure(NotAnObject(Attributes), i + 1))
      && FieldValue(conv, WebIdentity, "attributes", toks, i) == Err(Failure(NotAnObject(Attributes), i + 1))
  {
  }

  /** accountId, second rule: without the identity's own one, the session issuer's is used, even null. */
  lemma AccountIdFromIssuer(rec: FieldMap)
    requires Sub(rec, "userIdentity").Some?
    requires Get(Sub(rec, "userIdentity").value, "accountId").Null?
    requires Sub(Sub(rec, "userIdentity").value, "sessionContext").Some?
    requires Sub(Sub(Sub(rec, "userIdentity").value, "sessionContext").value, "sessionIssuer").Some?
    ensures var issuer := Sub(Sub(Sub(rec, "userIdentity").value, "sessionContext").value, "sessionIssuer").value;
      SetAccountId(rec) == rec["accountId" := Get(issuer, "accountId")]
  {
  }

  /** accountId, last rule: with neither source, nothing is added. */
  lemma AccountIdAbsentWithoutSource(rec: FieldMap)
    requires "accountId" !in rec
    requires Sub(rec, "userIdentity").Some? ==>
      && Get(Sub(rec, "userIdentity").value, "accountId").Null?
      && (Sub(Sub(rec, "userIdentity").value, "sessionContext").None?
          || Sub(Sub(Sub(rec, "userIdentity").value, "sessionContext").value, "sessionIssuer").None?)
    ensures "accountId" !in SetAccountId(rec)
  {
  }

  /** The identity's accountId takes precedence over the issuer's, and over one the file itself carries. */
  lemma IdentityAccountIdWins(rec: FieldMap, id: string)
    requires Sub(rec, "userIdentity").Some? && Get(Sub(rec, "userIdentity").value, "accountId") == Text(id)
    ensures SetAccountId(rec)["accountId"] == Text(id)
  {
  }

  /** A decoded record's start offset never exceeds its end offset. */
  lemma DeliveryRangeOrdered(conv: Converters, toks: seq<Token>, i: nat)
    requires OffsetsAscending(toks) && i <= |toks| && DecodeRecord(conv, toks, i).Ok?
    ensures var info := DecodeRecord(conv, toks, i).value.value.deliveryInfo;
      info.charStart <= info.charEnd
  {
    LocationMonotone(toks, i, DecodeRecord(conv, toks, i).value.next);
  }
}
