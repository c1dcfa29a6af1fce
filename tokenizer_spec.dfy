// The state machine of groups/bdl/bdlb/bdlb_tokenizer.cpp as pure functions:
// the character classes, the next-state and action tables, the scan that
// `operator++` runs, and what the scan finds, stated without the machine.
//
// Characters are the source's `unsigned char` values 0 .. 255, and a
// pointer into the input is an index into the sequence of its characters.

module TokenizerSpec {

  /** A character as the source indexes the class table with it. */
  type Byte = b: int | 0 <= b < 256

  /** The input types: token character, soft delimiter, hard delimiter. */
  datatype InputType = Tok | Sft | Hrd

  /** The actions: accumulate token, accumulate delimiter, return, error. */
  datatype Action = AccumulateToken | AccumulateDelimiter | Return | Error

  /**
   * The states: START (nothing but soft delimiters seen), SOFTD (soft
   * delimiters after a token), HARDD (one hard delimiter seen), TOKEN.
   */
  datatype State = Start | SoftDelim | HardDelim | InToken

  /** `nextStateTable`. */
  function NextState(s: State, t: InputType): State {
    match s
    case Start => (match t case Tok => InToken case Sft => Start case Hrd => HardDelim)
    case SoftDelim => (match t case Tok => Start case Sft => SoftDelim case Hrd => HardDelim)
    case HardDelim => (match t case Tok => Start case Sft => HardDelim case Hrd => Start)
    case InToken => (match t case Tok => InToken case Sft => SoftDelim case Hrd => HardDelim)
  }

  /**
   * `actionTable`.  The only error entry is a soft delimiter in state START,
   * and a token character is accumulated only in START and TOKEN.
   */
  function ActionFor(s: State, t: InputType): (a: Action)
    ensures a == Error <==> s == Start && t == Sft
    ensures a == AccumulateToken <==> (s == Start || s == InToken) && t == Tok
  {
    match s
    case Start => (match t case Tok => AccumulateToken case Sft => Error case Hrd => AccumulateDelimiter)
    case SoftDelim => (match t case Tok => Return case Sft => AccumulateDelimiter case Hrd => AccumulateDelimiter)
    case HardDelim => (match t case Tok => Return case Sft => AccumulateDelimiter case Hrd => Return)
    case InToken => (match t case Tok => AccumulateToken case Sft => AccumulateDelimiter case Hrd => AccumulateDelimiter)
  }

  /** The only transitions back to START are those that return or fail. */
  lemma BackToStartOnlyByReturn(s: State, t: InputType)
    requires NextState(s, t) == Start
    ensures ActionFor(s, t) == Return || ActionFor(s, t) == Error
  {
  }

  /**
   * The class `Tokenizer_Data(soft, hard)` gives character c: hard if it is
   * a hard delimiter (the hard loop runs last), else soft if it is a soft
   * delimiter, else token.
   */
  function ClassOf(soft: seq<Byte>, hard: seq<Byte>, c: Byte): InputType {
    if c in hard then Hrd else if c in soft then Sft else Tok
  }

  // ---------------------------------------------------------------------
  // The end of the input
  // ---------------------------------------------------------------------

  /** `d_end_p`: null (the input ends at its first NUL), or the index of the end. */
  datatype EndPointer = NulTerminated | EndAt(end: nat)

  /** The input has an end: a NUL somewhere, or an end within it. */
  predicate Terminated(input: seq<Byte>, end: EndPointer) {
    match end
    case NulTerminated => 0 in input
    case EndAt(e) => e <= |input|
  }

  /** The index of the first NUL of s. */
  function FirstNul(s: seq<Byte>): (k: nat)
    requires 0 in s
    ensures k < |s| && s[k] == 0
    ensures forall j :: 0 <= j < k ==> s[j] != 0
  {
    if s[0] == 0 then 0 else FirstNul(s[1..]) + 1
  }

  /** The index where the input ends. */
  function Limit(input: seq<Byte>, end: EndPointer): (n: nat)
    requires Terminated(input, end)
    ensures n <= |input|
    ensures end.NulTerminated? ==> n < |input| && input[n] == 0 && forall j :: 0 <= j < n ==> input[j] != 0
  {
    match end
    case NulTerminated => FirstNul(input)
    case EndAt(e) => e
  }

  /**
   * The end test of the loops of `operator++` at a cursor within the input:
   * `d_end_p == d_cursor_p` when the end is known, `0 == *d_cursor_p`
   * otherwise.  Either way it holds exactly at the limit.
   */
  function AtEnd(input: seq<Byte>, end: EndPointer, cursor: nat): (r: bool)
    requires Terminated(input, end) && cursor <= Limit(input, end)
    ensures r <==> cursor == Limit(input, end)
  {
    match end
    case EndAt(e) => cursor == e
    case NulTerminated => input[cursor] == 0
  }

  // ---------------------------------------------------------------------
  // The scan of operator++
  // ---------------------------------------------------------------------

  /** The class of the character at index k. */
  function ClassAt(types: seq<InputType>, input: seq<Byte>, k: nat): InputType
    requires |types| == 256 && k < |input|
  {
    types[input[k]]
  }

  /**
   * The loop of `operator++` from `state`, with the cursor at `cursor` and
   * the end of the token at `postDelim`: the pair (postDelim, cursor) it
   * returns with.  START is never entered on a soft delimiter, so the error
   * action is never taken.
   */
  function Scan(types: seq<InputType>, input: seq<Byte>, limit: nat,
                state: State, cursor: nat, postDelim: nat): (nat, nat)
    requires |types| == 256 && cursor <= limit <= |input|
    requires state == Start ==> cursor == limit || ClassAt(types, input, cursor) != Sft
    decreases limit - cursor
  {
    if cursor == limit then (postDelim, cursor)
    else
      var t := ClassAt(types, input, cursor);
      match ActionFor(state, t)
      case AccumulateToken => Scan(types, input, limit, NextState(state, t), cursor + 1, postDelim + 1)
      case AccumulateDelimiter => Scan(types, input, limit, NextState(state, t), cursor + 1, postDelim)
      case Return => (postDelim, cursor)
  }

  // ---------------------------------------------------------------------
  // What the scan finds, without the machine
  // ---------------------------------------------------------------------

  /** Whether some character in [lo, hi) has class t. */
  predicate Contains(types: seq<InputType>, input: seq<Byte>, lo: nat, hi: nat, t: InputType)
    requires |types| == 256 && lo <= hi <= |input|
  {
    exists k :: lo <= k < hi && ClassAt(types, input, k) == t
  }

  /** Every character in [lo, hi) has class t. */
  predicate All(types: seq<InputType>, input: seq<Byte>, lo: nat, hi: nat, t: InputType)
    requires |types| == 256 && lo <= hi <= |input|
  {
    forall k :: lo <= k < hi ==> ClassAt(types, input, k) == t
  }

  /** No two characters in [lo, hi) are hard delimiters. */
  predicate AtMostOneHard(types: seq<InputType>, input: seq<Byte>, lo: nat, hi: nat)
    requires |types| == 256 && lo <= hi <= |input|
  {
    forall i, j :: lo <= i < j < hi ==> ClassAt(types, input, i) != Hrd || ClassAt(types, input, j) != Hrd
  }

  /** The end of the run of class-t characters from k: the first other class, or the limit. */
  function RunEnd(types: seq<InputType>, input: seq<Byte>, limit: nat, k: nat, t: InputType): (e: nat)
    requires |types| == 256 && k <= limit <= |input|
    ensures k <= e <= limit
    ensures All(types, input, k, e, t)
    ensures e == limit || ClassAt(types, input, e) != t
    decreases limit - k
  {
    if k == limit || ClassAt(types, input, k) != t then k else RunEnd(types, input, limit, k + 1, t)
  }

  /** The run ends at the first character from k of another class: any e with that property is RunEnd. */
  lemma {:induction false} RunEndIsFirstOther(types: seq<InputType>, input: seq<Byte>, limit: nat,
                                              k: nat, e: nat, t: InputType)
    requires |types| == 256 && k <= e <= limit <= |input|
    requires All(types, input, k, e, t)
    requires e == limit || ClassAt(types, input, e) != t
    ensures RunEnd(types, input, limit, k, t) == e
    decreases e - k
  {
    if k < e {
      RunEndIsFirstOther(types, input, limit, k + 1, e, t);
    }
  }

  /**
   * The end of the delimiter from p: soft delimiters, then at most one hard
   * delimiter followed by soft delimiters.
   */
  function DelimiterEnd(types: seq<InputType>, input: seq<Byte>, limit: nat, p: nat): (d: nat)
    requires |types| == 256 && p <= limit <= |input|
    ensures p <= d <= limit
    ensures !Contains(types, input, p, d, Tok)
    ensures AtMostOneHard(types, input, p, d)
    ensures d == limit || ClassAt(types, input, d) == Tok ||
            (ClassAt(types, input, d) == Hrd && Contains(types, input, p, d, Hrd))
  {
    var a := RunEnd(types, input, limit, p, Sft);
    if a < limit && ClassAt(types, input, a) == Hrd then
      var d := RunEnd(types, input, limit, a + 1, Sft);
      assert forall k :: p <= k < d && k != a ==> ClassAt(types, input, k) == Sft;
      d
    else a
  }

  /** From HARDD the scan runs to the end of the soft delimiters. */
  lemma {:induction false} ScanFromHard(types: seq<InputType>, input: seq<Byte>, limit: nat, k: nat, p: nat)
    requires |types| == 256 && k <= limit <= |input|
    ensures Scan(types, input, limit, HardDelim, k, p) == (p, RunEnd(types, input, limit, k, Sft))
    decreases limit - k
  {
    if k < limit && ClassAt(types, input, k) == Sft {
      ScanFromHard(types, input, limit, k + 1, p);
    }
  }

  /** From SOFTD the scan runs to the end of the delimiter. */
  lemma {:induction false} ScanFromSoft(types: seq<InputType>, input: seq<Byte>, limit: nat, k: nat, p: nat)
    requires |types| == 256 && k <= limit <= |input|
    ensures Scan(types, input, limit, SoftDelim, k, p) == (p, DelimiterEnd(types, input, limit, k))
    decreases limit - k
  {
    if k < limit {
      match ClassAt(types, input, k)
      case Sft => ScanFromSoft(types, input, limit, k + 1, p);
      case Hrd => ScanFromHard(types, input, limit, k + 1, p);
      case Tok =>
    }
  }

  /** From TOKEN the scan runs to the end of the token, then to the end of the delimiter. */
  lemma {:induction false} ScanFromToken(types: seq<InputType>, input: seq<Byte>, limit: nat, k: nat)
    requires |types| == 256 && k <= limit <= |input|
    ensures var e := RunEnd(types, input, limit, k, Tok);
      Scan(types, input, limit, InToken, k, k) == (e, DelimiterEnd(types, input, limit, e))
    decreases limit - k
  {
    if k < limit {
      match ClassAt(types, input, k)
      case Tok => ScanFromToken(types, input, limit, k + 1);
      case Sft => ScanFromSoft(types, input, limit, k + 1, k);
      case Hrd => ScanFromHard(types, input, limit, k + 1, k);
    }
  }

  /**
   * From START on a character that is not a soft delimiter, the scan finds
   * the token that starts there and the delimiter after it.
   */
  lemma ScanFromStart(types: seq<InputType>, input: seq<Byte>, limit: nat, k: nat)
    requires |types| == 256 && k <= limit <= |input|
    requires k == limit || ClassAt(types, input, k) != Sft
    ensures var e := RunEnd(types, input, limit, k, Tok);
      Scan(types, input, limit, Start, k, k) == (e, DelimiterEnd(types, input, limit, e))
  {
    if k < limit {
      match ClassAt(types, input, k)
      case Tok => ScanFromToken(types, input, limit, k + 1);
      case Hrd => ScanFromHard(types, input, limit, k + 1, k);
    }
  }

  /** The scan reads no character at or after the limit. */
  lemma {:induction false} ScanWithinLimit(types: seq<InputType>, input: seq<Byte>, other: seq<Byte>, limit: nat,
                                           state: State, cursor: nat, postDelim: nat)
    requires |types| == 256 && cursor <= limit <= |input| && limit <= |other|
    requires input[..limit] == other[..limit]
    requires state == Start ==> cursor == limit || ClassAt(types, input, cursor) != Sft
    ensures state == Start ==> cursor == limit || ClassAt(types, other, cursor) != Sft
    ensures Scan(types, input, limit, state, cursor, postDelim) == Scan(types, other, limit, state, cursor, postDelim)
    decreases limit - cursor
  {
    if cursor < limit {
      assert input[cursor] == input[..limit][cursor] == other[..limit][cursor] == other[cursor];
      var t := ClassAt(types, input, cursor);
      var a := ActionFor(state, t);
      if a == AccumulateToken || a == AccumulateDelimiter {
        ScanWithinLimit(types, input, other, limit, NextState(state, t), cursor + 1,
          if a == AccumulateToken then postDelim + 1 else postDelim);
      }
    }
  }

  // ---------------------------------------------------------------------
  // The tokenizer's pointers, step by step
  // ---------------------------------------------------------------------

  /**
   * The pointers of a tokenizer as indices into its input: `d_cursor_p`,
   * `d_token_p`, `d_postDelim_p`, `d_prevDelim_p`, and `d_isEnd`.  The
   * current token is [token, postDelim), the delimiter after it
   * [postDelim, cursor), the delimiter before it [prevDelim, token).
   */
  datatype Position = Position(cursor: nat, token: nat, postDelim: nat, prevDelim: nat, isEnd: bool)

  /**
   * The invariant between steps: the pointers are in order within the
   * input, the cursor is at the end or on a character that is not a soft
   * delimiter, the token holds only token characters, and the delimiter
   * holds no token character and at most one hard delimiter.
   */
  predicate Between(types: seq<InputType>, input: seq<Byte>, limit: nat, p: Position)
    requires |types| == 256 && limit <= |input|
  {
    p.prevDelim <= p.token <= p.postDelim <= p.cursor <= limit &&
    (p.cursor == limit || ClassAt(types, input, p.cursor) != Sft) &&
    All(types, input, p.token, p.postDelim, Tok) &&
    !Contains(types, input, p.postDelim, p.cursor, Tok) &&
    AtMostOneHard(types, input, p.postDelim, p.cursor)
  }

  /**
   * `operator++` of the tokenizer: the delimiter becomes the previous one,
   * the token and its end start at the cursor; at the end of the input the
   * tokenizer is marked as ended, otherwise the machine scans from START.
   */
  function Advance(types: seq<InputType>, input: seq<Byte>, limit: nat, p: Position): Position
    requires |types| == 256 && limit <= |input|
    requires p.cursor <= limit && (p.cursor == limit || ClassAt(types, input, p.cursor) != Sft)
  {
    var c := p.cursor;
    if c == limit then Position(c, c, c, p.postDelim, true)
    else
      var (postDelim, cursor) := Scan(types, input, limit, Start, c, c);
      Position(cursor, c, postDelim, p.postDelim, p.isEnd)
  }

  /**
   * One step: the previous delimiter is the old delimiter; at the end of the
   * input the tokenizer ends with an empty token and delimiter; otherwise the
   * cursor moves forward, the token is the run of token characters at the
   * old cursor and the delimiter runs to the end of the delimiter after it,
   * and the invariant holds again.
   */
  lemma AdvanceStep(types: seq<InputType>, input: seq<Byte>, limit: nat, p: Position)
    requires |types| == 256 && limit <= |input|
    requires Between(types, input, limit, p)
    ensures var q := Advance(types, input, limit, p);
      && q.prevDelim == p.postDelim
      && (p.cursor == limit ==> q.isEnd && q.token == q.postDelim == q.cursor == p.cursor)
      && (p.cursor < limit ==>
            && q.isEnd == p.isEnd
            && q.token == p.cursor < q.cursor
            && q.postDelim == RunEnd(types, input, limit, q.token, Tok)
            && q.cursor == DelimiterEnd(types, input, limit, q.postDelim))
      && Between(types, input, limit, q)
  {
    if p.cursor < limit {
      ScanFromStart(types, input, limit, p.cursor);
      var e := RunEnd(types, input, limit, p.cursor, Tok);
      var d := DelimiterEnd(types, input, limit, e);
      if e == d {
        assert e == p.cursor ==> ClassAt(types, input, e) != Tok && ClassAt(types, input, e) != Sft;
      }
    }
  }

  /**
   * `resetImpl`: every pointer at the start of the input, not ended, the
   * cursor past the leading soft delimiters, then one step.
   */
  function ResetPosition(types: seq<InputType>, input: seq<Byte>, limit: nat): Position
    requires |types| == 256 && limit <= |input|
  {
    Advance(types, input, limit, Position(RunEnd(types, input, limit, 0, Sft), 0, 0, 0, false))
  }

  /**
   * After a reset the previous delimiter is the leading soft delimiters and
   * the token starts at the first character that is not one; the invariant
   * holds.
   */
  lemma ResetFindsFirstToken(types: seq<InputType>, input: seq<Byte>, limit: nat)
    requires |types| == 256 && limit <= |input|
    ensures var q := ResetPosition(types, input, limit);
      && q.prevDelim == 0
      && q.token == RunEnd(types, input, limit, 0, Sft)
      && All(types, input, q.prevDelim, q.token, Sft)
      && (q.isEnd <==> q.token == limit)
      && Between(types, input, limit, q)
  {
    var start := RunEnd(types, input, limit, 0, Sft);
    AdvanceStep(types, input, limit, Position(start, 0, 0, 0, false));
  }

  /**
   * The two copies of the loop, one bounded by `d_end_p` and one by the
   * terminating NUL, step alike: characters s with no NUL, bounded by their
   * length or followed by a NUL, give the same limit and the same step.
   */
  lemma BoundedMatchesNulTerminated(types: seq<InputType>, s: seq<Byte>, p: Position)
    requires |types| == 256 && 0 !in s
    requires p.cursor <= |s| && (p.cursor == |s| || ClassAt(types, s, p.cursor) != Sft)
    ensures Limit(s, EndAt(|s|)) == Limit(s + [0], NulTerminated) == |s|
    ensures Advance(types, s, |s|, p) == Advance(types, s + [0], |s|, p)
    ensures ResetPosition(types, s, |s|) == ResetPosition(types, s + [0], |s|)
  {
    var t := s + [0];
    assert t[|s|] == 0;
    assert t[..|s|] == s[..|s|];
    ScanWithinLimit(types, s, t, |s|, Start, p.cursor, p.cursor);
    RunEndWithinLimit(types, s, t, |s|, 0, Sft);
    var start := RunEnd(types, s, |s|, 0, Sft);
    ScanWithinLimit(types, s, t, |s|, Start, start, start);
  }

  /** The runs read no character at or after the limit either. */
  lemma {:induction false} RunEndWithinLimit(types: seq<InputType>, input: seq<Byte>, other: seq<Byte>, limit: nat,
                                             k: nat, t: InputType)
    requires |types| == 256 && k <= limit <= |input| && limit <= |other|
    requires input[..limit] == other[..limit]
    ensures RunEnd(types, input, limit, k, t) == RunEnd(types, other, limit, k, t)
    decreases limit - k
  {
    if k < limit {
      assert input[k] == input[..limit][k] == other[..limit][k] == other[k];
      RunEndWithinLimit(types, input, other, limit, k + 1, t);
    }
  }
}
