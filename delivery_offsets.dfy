/**
 * The record's delivery offsets as the decoder computes them: the tokenizer reports 64-bit
 * character offsets and the decoder narrows each to a 32-bit int before pairing them.
 */
module DeliveryOffsets {
  import opened Wrappers
  import opened JsonTokens
  import opened Records

  const TwoTo31 := 0x8000_0000
  const TwoTo32 := 0x1_0000_0000

  /** A narrowing cast to a 32-bit int: the low 32 bits, read as two's complement. */
  function ToInt32(x: int): (r: int)
    ensures -TwoTo31 <= r < TwoTo31
    ensures (x - r) % TwoTo32 == 0
    ensures 0 <= x < TwoTo31 ==> r == x
  {
    (x + TwoTo31) % TwoTo32 - TwoTo31
  }

  /** The (start, end) pair as written: each offset narrowed on its own. */
  function AsWrittenDeliveryRange(charStart: nat, charEnd: nat): (int, int)
  {
    (ToInt32(charStart), ToInt32(charEnd))
  }

  /** Below 2^31 characters the narrowing changes nothing and the range stays ordered. */
  lemma AsWrittenRangeOrderedBelowLimit(charStart: nat, charEnd: nat)
    requires charStart <= charEnd < TwoTo31
    ensures AsWrittenDeliveryRange(charStart, charEnd) == (charStart, charEnd)
  {
  }

  /** A record that starts before character 2^31 and ends after it gets an inverted range. */
  lemma AsWrittenRangeInverts()
    ensures var range := AsWrittenDeliveryRange(0x7FFF_FF00, 0x8000_0100);
      range.0 > 0 && range.1 < 0 && range.0 > range.1
  {
  }

  /** A decoded record as written: its fields, with the two offsets each narrowed to an int. */
  datatype NarrowedRecord = NarrowedRecord(record: FieldMap, charStart: int, charEnd: int)

  /**
   * One record decoded as written: the fields Records.DecodeRecord reads, paired with the
   * narrowed offsets of the tokenizer before and after the record.
   */
  function AsWrittenDecodeRecord(conv: Converters, toks: seq<Token>, i: nat): (r: Result<Parsed<NarrowedRecord>, Failure>)
    requires i <= |toks|
    ensures r.Ok? <==> DecodeRecord(conv, toks, i).Ok?
    ensures r.Err? ==> r.error == DecodeRecord(conv, toks, i).error
    ensures r.Ok? ==>
      && r.value.next == DecodeRecord(conv, toks, i).value.next
      && r.value.value.record == DecodeRecord(conv, toks, i).value.value.record
      && (r.value.value.charStart, r.value.value.charEnd)
         == AsWrittenDeliveryRange(Location(toks, i), Location(toks, r.value.next))
  {
    var p :- DecodeRecord(conv, toks, i);
    var range := AsWrittenDeliveryRange(p.value.deliveryInfo.charStart, p.value.deliveryInfo.charEnd);
    Ok(Parsed(NarrowedRecord(p.value.record, range.0, range.1), p.next))
  }

  /** An empty record `{ }` whose braces are read at characters 0x7FFFFF00 and 0x80000100. */
  function LimitCrossingTokens(): seq<Token>
  {
    [ Token(StartObject, "{", 0x7FFF_FF00), Token(EndObject, "}", 0x8000_0100) ]
  }

  /**
   * Any record the decoder reads that starts below character 2^31 and ends at or beyond it
   * (and below 2^32) gets, as written, a start offset greater than its end offset.
   */
  lemma AsWrittenDecodeInverts(conv: Converters, toks: seq<Token>, i: nat)
    requires i <= |toks| && DecodeRecord(conv, toks, i).Ok?
    requires Location(toks, i) < TwoTo31 <= Location(toks, DecodeRecord(conv, toks, i).value.next) < TwoTo32
    ensures var r := AsWrittenDecodeRecord(conv, toks, i).value.value;
      r.charEnd < 0 <= r.charStart && r.charStart > r.charEnd
  {
  }

  /** Such a record exists: the empty record of LimitCrossingTokens() is read with an inverted range. */
  lemma LimitCrossingRecordInverts(conv: Converters)
    ensures AsWrittenDecodeRecord(conv, LimitCrossingTokens(), 1)
            == Ok(Parsed(NarrowedRecord(map[], 0x7FFF_FF00, 0x8000_0100 - TwoTo32), 2))
  {
    var toks := LimitCrossingTokens();
    assert Fields(conv, Record, toks, 1, map[]) == Ok(Parsed(map[], 2));
    assert SetAccountId(map[]) == map[];
  }
}
