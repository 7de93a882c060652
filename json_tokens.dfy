/**
 * The token stream the streaming JSON tokenizer hands to the record decoder, and the
 * facts about it that the decoder relies on: nesting balance, where a nested value ends,
 * its compact text form, and the character offsets the tokenizer reports.
 */
module JsonTokens {
  import opened Wrappers

  /** Token kinds of the streaming tokenizer (integral and floating numbers share one kind). */
  datatype Kind =
    | StartObject | EndObject | StartArray | EndArray
    | FieldName | StringValue | NumberValue | TrueValue | FalseValue | NullValue

  /**
   * One token: its kind, its text as the tokenizer reports it (the field name, the string
   * contents, or the literal as written) and the character offset of the tokenizer's read
   * position once the token has been read.
   */
  datatype Token = Token(kind: Kind, text: string, offset: nat)

  predicate IsOpen(k: Kind) { k == StartObject || k == StartArray }

  predicate IsClose(k: Kind) { k == EndObject || k == EndArray }

  /** How a token changes the nesting depth. */
  function Delta(k: Kind): int
  {
    if IsOpen(k) then 1 else if IsClose(k) then -1 else 0
  }

  /** Net change of nesting depth across a run of tokens. */
  function Balance(s: seq<Token>): int
  {
    if s == [] then 0 else Delta(s[0].kind) + Balance(s[1..])
  }

  /** The token a read at cursor `i` yields; None once the input is exhausted. */
  function At(toks: seq<Token>, i: nat): Option<Token>
  {
    if i < |toks| then Some(toks[i]) else None
  }

  /** The cursor after one read: a read at the end of input yields nothing and stays put. */
  function Next(toks: seq<Token>, i: nat): nat
  {
    if i < |toks| then i + 1 else i
  }

  /** The tokenizer's character offset once `i` tokens have been read. */
  function Location(toks: seq<Token>, i: nat): nat
    requires i <= |toks|
  {
    if i == 0 then 0 else toks[i - 1].offset
  }

  /** The tokenizer only moves forward through its input. */
  ghost predicate OffsetsAscending(toks: seq<Token>)
  {
    forall k :: 0 < k < |toks| ==> toks[k - 1].offset <= toks[k].offset
  }

  lemma {:induction false} LocationMonotone(toks: seq<Token>, i: nat, j: nat)
    requires OffsetsAscending(toks) && i <= j <= |toks|
    ensures Location(toks, i) <= Location(toks, j)
    decreases j
  {
    if i < j {
      LocationMonotone(toks, i, j - 1);
    }
  }

  /**
   * Reading on from cursor `i` inside `depth` open containers: the cursor just past the
   * token that closes the outermost of them, or None when the input ends first.
   */
  function SubtreeEnd(toks: seq<Token>, i: nat, depth: nat): (r: Option<nat>)
    requires i <= |toks| && depth > 0
    ensures r.Some? ==> i < r.value <= |toks| && IsClose(toks[r.value - 1].kind)
    decreases |toks| - i
  {
    if i == |toks| then None
    else if depth + Delta(toks[i].kind) == 0 then Some(i + 1)
    else SubtreeEnd(toks, i + 1, depth + Delta(toks[i].kind))
  }

  lemma BalanceStep(toks: seq<Token>, i: nat, k: nat)
    requires i < k <= |toks|
    ensures Balance(toks[i..k]) == Delta(toks[i].kind) + Balance(toks[i + 1..k])
  {
    assert toks[i..k][1..] == toks[i + 1..k];
  }

  /** The scan closes every open container exactly at the returned cursor and not before. */
  lemma {:induction false} SubtreeEndBalances(toks: seq<Token>, i: nat, depth: nat)
    requires i <= |toks| && depth > 0 && SubtreeEnd(toks, i, depth).Some?
    ensures var j := SubtreeEnd(toks, i, depth).value;
      && depth + Balance(toks[i..j]) == 0
      && forall k :: i <= k < j ==> depth + Balance(toks[i..k]) > 0
    decreases |toks| - i
  {
    var j := SubtreeEnd(toks, i, depth).value;
    var d := depth + Delta(toks[i].kind);
    assert toks[i..i] == [];
    BalanceStep(toks, i, j);
    if d != 0 {
      SubtreeEndBalances(toks, i + 1, d);
      forall k | i < k < j
        ensures depth + Balance(toks[i..k]) > 0
      {
        BalanceStep(toks, i, k);
      }
    } else {
      assert toks[i + 1..j] == [];
    }
  }

  /**
   * A nested value that starts at `s` ends at the token that matches its opening one:
   * the slice is balanced and every proper prefix of it is still open.
   */
  lemma MatchingClose(toks: seq<Token>, s: nat)
    requires s < |toks| && IsOpen(toks[s].kind) && SubtreeEnd(toks, s + 1, 1).Some?
    ensures var j := SubtreeEnd(toks, s + 1, 1).value;
      && IsClose(toks[j - 1].kind)
      && Balance(toks[s..j]) == 0
      && forall k :: s < k < j ==> Balance(toks[s..k]) > 0
  {
    var j := SubtreeEnd(toks, s + 1, 1).value;
    SubtreeEndBalances(toks, s + 1, 1);
    BalanceStep(toks, s, j);
    forall k | s < k < j
      ensures Balance(toks[s..k]) > 0
    {
      BalanceStep(toks, s, k);
    }
  }

  /** The compact JSON text of one token (no escaping is modelled). */
  function Lexeme(t: Token): string
  {
    match t.kind
    case StartObject => "{"
    case EndObject => "}"
    case StartArray => "["
    case EndArray => "]"
    case FieldName => "\"" + t.text + "\":"
    case StringValue => "\"" + t.text + "\""
    case _ => t.text
  }

  /** A comma goes between two tokens when the first ends a value and the second does not close. */
  function Separator(prev: Token, t: Token): string
  {
    if IsOpen(prev.kind) || prev.kind == FieldName || IsClose(t.kind) then "" else ","
  }

  /** The compact text of a run of tokens, standing for the tree's string form. */
  function Render(s: seq<Token>): string
    decreases |s|
  {
    if s == [] then ""
    else if |s| == 1 then Lexeme(s[0])
    else Render(s[..|s| - 1]) + Separator(s[|s| - 2], s[|s| - 1]) + Lexeme(s[|s| - 1])
  }
}
