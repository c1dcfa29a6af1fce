// The classes of groups/bdl/bdlb/bdlb_tokenizer.cpp: the character-class
// table `Tokenizer_Data`, the `Tokenizer` with its `operator++`, reset and
// delimiter queries, and the `TokenizerIterator`.  Each method is proved
// against the functions of TokenizerSpec.
//
// A tokenizer's input is the sequence of characters from `d_input_p` on;
// its pointers are indices into it.

module Tokenizers {
  import opened TokenizerSpec

  /** `Tokenizer_Data`: the class of every character, one entry per `unsigned char`. */
  class TokenizerData {
    const charTypes: array<InputType>

    /** `Tokenizer_Data(soft)`: soft delimiters are SFT, every other character TOK. */
    constructor WithSoft(soft: seq<Byte>)
      ensures fresh(charTypes) && charTypes.Length == 256
      ensures forall c: Byte :: charTypes[c] == ClassOf(soft, [], c)
    {
      var types := new InputType[256](_ => Tok);
      Mark(types, soft, Sft);
      charTypes := types;
    }

    /**
     * `Tokenizer_Data(soft, hard)`: hard delimiters are HRD, other soft
     * delimiters SFT, every other character TOK.
     */
    constructor (soft: seq<Byte>, hard: seq<Byte>)
      ensures fresh(charTypes) && charTypes.Length == 256
      ensures forall c: Byte :: charTypes[c] == ClassOf(soft, hard, c)
    {
      var types := new InputType[256](_ => Tok);
      Mark(types, soft, Sft);
      Mark(types, hard, Hrd);
      charTypes := types;
    }
  }

  /**
   * The loop `d_charTypes[(unsigned char)*it] = type` over the characters of
   * a delimiter string: those characters get the type, the others keep theirs.
   */
  method Mark(types: array<InputType>, chars: seq<Byte>, t: InputType)
    requires types.Length == 256
    modifies types
    ensures forall c: Byte :: types[c] == if c in chars then t else old(types[c])
  {
    for i := 0 to |chars|
      invariant forall c: Byte :: types[c] == if c in chars[..i] then t else old(types[c])
    {
      assert chars[..i + 1] == chars[..i] + [chars[i]];
      types[chars[i]] := t;
    }
    assert chars[..|chars|] == chars;
  }

  /**
   * The `do`/`while` loop of `operator++` from the cursor `start`, which is
   * not at the end: the table-driven machine from START, accumulating token
   * characters and delimiters until the action is to return or the input
   * ends.  It returns the end of the token and the new cursor.  The error
   * action is never taken.
   */
  method RunMachine(types: array<InputType>, input: seq<Byte>, end: EndPointer, start: nat)
    returns (postDelim: nat, cursor: nat)
    requires types.Length == 256 && Terminated(input, end)
    requires start <= Limit(input, end)
    requires start == Limit(input, end) || ClassAt(types[..], input, start) != Sft
    ensures (postDelim, cursor) == Scan(types[..], input, Limit(input, end), Start, start, start)
  {
    ghost var limit := Limit(input, end);
    postDelim, cursor := start, start;
    var state := Start;
    while true
      invariant postDelim <= cursor <= limit
      invariant state == Start ==> cursor == limit || ClassAt(types[..], input, cursor) != Sft
      invariant Scan(types[..], input, limit, state, cursor, postDelim) == Scan(types[..], input, limit, Start, start, start)
      decreases limit - cursor
    {
      if AtEnd(input, end, cursor) {
        return;
      }
      var inputType := types[input[cursor]];
      match ActionFor(state, inputType) {
        case AccumulateToken =>
          postDelim := postDelim + 1;
        case AccumulateDelimiter =>
        case Return =>
          return;
        case Error =>
          assert false;
      }
      state := NextState(state, inputType);
      cursor := cursor + 1;
    }
  }

  /**
   * The loop `while (!isEos() && SFT == d_charTypes[*d_cursor_p]) ++d_cursor_p;`
   * of the reset and of the iterator's constructor: the cursor moves past
   * the soft delimiters at `start`.
   */
  method SkipSoft(types: array<InputType>, input: seq<Byte>, end: EndPointer, start: nat) returns (cursor: nat)
    requires types.Length == 256 && Terminated(input, end) && start <= Limit(input, end)
    ensures cursor == RunEnd(types[..], input, Limit(input, end), start, Sft)
  {
    ghost var limit := Limit(input, end);
    cursor := start;
    while !AtEnd(input, end, cursor) && types[input[cursor]] == Sft
      invariant start <= cursor <= limit
      invariant All(types[..], input, start, cursor, Sft)
      decreases limit - cursor
    {
      cursor := cursor + 1;
    }
    RunEndIsFirstOther(types[..], input, limit, start, cursor, Sft);
  }

  /** `Tokenizer`: the pointers of TokenizerSpec.Position over an input, stepped in place. */
  class Tokenizer {
    const data: TokenizerData
    var input: seq<Byte>
    var end: EndPointer
    var cursor: nat
    var token: nat
    var postDelim: nat
    var prevDelim: nat
    var isEnd: bool

    /** The class of every character. */
    function Types(): seq<InputType>
      reads data.charTypes
    {
      data.charTypes[..]
    }

    /** Where the input ends. */
    function Limit(): nat
      requires Terminated(input, end)
      reads this
    {
      TokenizerSpec.Limit(input, end)
    }

    /** The pointers, as one value. */
    function Pos(): Position
      reads this
    {
      Position(cursor, token, postDelim, prevDelim, isEnd)
    }

    /** The class table is complete, the input has an end, and the pointers are as between steps. */
    ghost predicate Valid()
      reads this, data.charTypes
    {
      data.charTypes.Length == 256 && Terminated(input, end) && Between(Types(), input, Limit(), Pos())
    }

    /** `Tokenizer(input, soft, hard)`: the class table, then a reset to the input. */
    constructor (input: seq<Byte>, end: EndPointer, soft: seq<Byte>, hard: seq<Byte>)
      requires Terminated(input, end)
      ensures Valid() && fresh(data) && fresh(data.charTypes)
      ensures this.input == input && this.end == end
      ensures forall c: Byte :: data.charTypes[c] == ClassOf(soft, hard, c)
      ensures Pos() == ResetPosition(Types(), input, Limit())
    {
      data := new TokenizerData(soft, hard);
      new;
      Reset(input, end);
    }

    /**
     * `operator++`: the delimiter becomes the previous one, the token and its
     * end start at the cursor; at the end of the input the tokenizer is
     * marked as ended, otherwise the table-driven machine runs from START
     * until it returns or the input ends.
     */
    method Increment()
      requires Valid()
      modifies this
      ensures Valid() && input == old(input) && end == old(end)
      ensures Pos() == Advance(Types(), input, Limit(), old(Pos()))
    {
      ghost var types, limit, p0 := Types(), Limit(), Pos();
      AdvanceStep(types, input, limit, p0);

      prevDelim := postDelim;
      token := cursor;
      postDelim := cursor;
      if AtEnd(input, end, cursor) {
        isEnd := true;
        return;
      }

      postDelim, cursor := RunMachine(data.charTypes, input, end, cursor);
    }

    /**
     * `reset` (`resetImpl`): every pointer at the start of the input, not
     * ended, the leading soft delimiters skipped, then one step to the
     * first token.
     */
    method Reset(input: seq<Byte>, end: EndPointer)
      requires data.charTypes.Length == 256 && Terminated(input, end)
      modifies this
      ensures Valid() && this.input == input && this.end == end
      ensures Pos() == ResetPosition(Types(), input, Limit())
    {
      this.input := input;
      this.end := end;
      cursor, prevDelim, token, postDelim := 0, 0, 0, 0;
      isEnd := false;

      ghost var types, limit := Types(), Limit();
      cursor := SkipSoft(data.charTypes, input, end, 0);
      assert !Contains(types, input, 0, cursor, Tok) && !Contains(types, input, 0, cursor, Hrd);
      assert Pos() == Position(RunEnd(types, input, limit, 0, Sft), 0, 0, 0, false);
      Increment();
    }

    /** Whether some character of [lo, hi) has class t: the loop shared by the four queries below. */
    method Find(lo: nat, hi: nat, t: InputType) returns (r: bool)
      requires Valid() && lo <= hi <= |input|
      ensures r == Contains(Types(), input, lo, hi, t)
    {
      var p := lo;
      while p != hi
        invariant lo <= p <= hi
        invariant !Contains(Types(), input, lo, p, t)
      {
        if data.charTypes[input[p]] == t {
          assert ClassAt(Types(), input, p) == t;
          return true;
        }
        p := p + 1;
      }
      return false;
    }

    /** `hasSoft`: not ended, and the delimiter after the token holds a soft delimiter. */
    method HasSoft() returns (r: bool)
      requires Valid()
      ensures r == (!isEnd && Contains(Types(), input, postDelim, cursor, Sft))
    {
      if isEnd {
        return false;
      }
      r := Find(postDelim, cursor, Sft);
    }

    /** `isHard`: not ended, and the delimiter after the token holds a hard delimiter. */
    method IsHard() returns (r: bool)
      requires Valid()
      ensures r == (!isEnd && Contains(Types(), input, postDelim, cursor, Hrd))
    {
      if isEnd {
        return false;
      }
      r := Find(postDelim, cursor, Hrd);
    }

    /** `hasPreviousSoft`: the delimiter before the token holds a soft delimiter. */
    method HasPreviousSoft() returns (r: bool)
      requires Valid()
      ensures r == Contains(Types(), input, prevDelim, token, Sft)
    {
      r := Find(prevDelim, token, Sft);
    }

    /** `isPreviousHard`: the delimiter before the token holds a hard delimiter. */
    method IsPreviousHard() returns (r: bool)
      requires Valid()
      ensures r == Contains(Types(), input, prevDelim, token, Hrd)
    {
      r := Find(prevDelim, token, Hrd);
    }

    /**
     * `begin()`: an iterator over the same input and class table, which
     * starts where a reset leaves the tokenizer.
     */
    method Begin() returns (it: TokenizerIterator)
      requires data.charTypes.Length == 256 && Terminated(input, end)
      ensures fresh(it) && it.Valid() && it.data == data && it.input == input && it.end == end
      ensures var q := ResetPosition(Types(), input, Limit());
        it.cursor == q.cursor && it.token == q.token && it.postDelim == q.postDelim && it.isEnd == q.isEnd
    {
      it := new TokenizerIterator(input, end, data);
    }
  }

  /**
   * `TokenizerIterator`: the same pointers as a tokenizer but for the
   * previous delimiter, over a class table it shares with its tokenizer.
   */
  class TokenizerIterator {
    const data: TokenizerData?
    var input: seq<Byte>
    var end: EndPointer
    var cursor: nat
    var token: nat
    var postDelim: nat
    var isEnd: bool

    /** The class of every character. */
    function Types(): seq<InputType>
      requires data != null
      reads data.charTypes
    {
      data.charTypes[..]
    }

    /** Where the input ends. */
    function Limit(): nat
      requires Terminated(input, end)
      reads this
    {
      TokenizerSpec.Limit(input, end)
    }

    /** The pointers, as a tokenizer's with the previous delimiter empty before the token. */
    function Pos(): Position
      reads this
    {
      Position(cursor, token, postDelim, token, isEnd)
    }

    /** Attached to a complete class table, over an input with an end, with the pointers as between steps. */
    ghost predicate Valid()
      reads this, if data != null then {data.charTypes} else {}
    {
      data != null && data.charTypes.Length == 256 && Terminated(input, end) &&
      Between(Types(), input, Limit(), Pos())
    }

    /** The default constructor: the end iterator, attached to nothing. */
    constructor AtEndOfInput()
      ensures data == null && isEnd
      ensures input == [] && end == NulTerminated
      ensures cursor == token == postDelim == 0
    {
      data := null;
      input := [];
      end := NulTerminated;
      cursor, token, postDelim := 0, 0, 0;
      isEnd := true;
    }

    /** `TokenizerIterator(input, end, data)`: skip the leading soft delimiters, then one step. */
    constructor (input: seq<Byte>, end: EndPointer, data: TokenizerData)
      requires data.charTypes.Length == 256 && Terminated(input, end)
      ensures Valid() && this.data == data && this.input == input && this.end == end
      ensures var q := ResetPosition(data.charTypes[..], input, TokenizerSpec.Limit(input, end));
        cursor == q.cursor && token == q.token && postDelim == q.postDelim && isEnd == q.isEnd
    {
      this.data := data;
      this.input := input;
      this.end := end;
      token, postDelim := 0, 0;
      isEnd := false;
      new;
      ghost var types, limit := Types(), Limit();
      cursor := SkipSoft(data.charTypes, input, end, 0);
      assert !Contains(types, input, 0, cursor, Tok) && !Contains(types, input, 0, cursor, Hrd);
      assert Position(cursor, token, postDelim, 0, isEnd) == Position(RunEnd(types, input, limit, 0, Sft), 0, 0, 0, false);
      AdvanceStep(types, input, limit, Pos());
      Increment();
    }

    /**
     * `operator++`: the step of the tokenizer, apart from the previous
     * delimiter, which the iterator does not keep.
     */
    method Increment()
      requires Valid()
      modifies this
      ensures Valid() && input == old(input) && end == old(end)
      ensures var q := Advance(Types(), input, Limit(), old(Pos()));
        cursor == q.cursor && token == q.token && postDelim == q.postDelim && isEnd == q.isEnd
    {
      ghost var types, limit, p0 := Types(), Limit(), Pos();
      AdvanceStep(types, input, limit, p0);

      token := cursor;
      postDelim := cursor;
      if AtEnd(input, end, cursor) {
        isEnd := true;
        return;
      }
      postDelim, cursor := RunMachine(data.charTypes, input, end, cursor);
    }
  }
}
