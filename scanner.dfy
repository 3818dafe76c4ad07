/**
 * The first pass of parseFieldInfo: a single left-to-right walk over the buffer that
 * finds up to MAX_BLOCKS "[...]" blocks, rejects a nested '[' or a stray ']', and
 * tracks the line and column reported with such an error.  ScanFrom is that walk as a
 * function of the walk's state; Meaning says what its outcome is in terms of the text.
 */
module BracketScanner {
  import opened Wrappers

  const MAX_BLOCKS: nat := 32

  /** A block's content is b[start..close]; its '[' is at start - 1 and its ']' at close. */
  datatype Block = Block(start: nat, close: nat)

  datatype BracketError = NestedOpen | UnmatchedClose

  /** Found: the blocks closed, and the position where the walk stopped. */
  datatype ScanOutcome =
    | Found(blocks: seq<Block>, stop: nat)
    | Failed(error: BracketError, at: nat, line: nat, column: nat)

  /** The loop variables of the walk: i, open, the pending block start, the blocks, line, column. */
  datatype ScanState = ScanState(pos: nat, open: bool, pending: nat, blocks: seq<Block>, line: nat, column: nat)

  const Start: ScanState := ScanState(0, false, 0, [], 0, 0)

  predicate IsBracket(c: char) {
    c == '[' || c == ']'
  }

  /** The walk's state after it consumes c at s.pos without an error. */
  function Consume(s: ScanState, c: char): ScanState {
    var closing := s.open && c == ']';
    var opening := !s.open && c == '[';
    ScanState(
      s.pos + 1,
      if closing then false else if opening then true else s.open,
      if opening then s.pos + 1 else s.pending,
      if closing then s.blocks + [Block(s.pending, s.pos)] else s.blocks,
      if c == '\n' then s.line + 1 else s.line,
      if c == '\n' then 0 else s.column + 1)
  }

  /** The walk from state s to its end: the buffer's end, the block limit, or a bracket error. */
  function ScanFrom(b: seq<char>, s: ScanState): (r: ScanOutcome)
    ensures r.Found? && s.pos <= |b| ==> r.stop <= |b|
    ensures r.Failed? ==> r.at < |b|
    decreases |b| - s.pos
  {
    if s.pos >= |b| || |s.blocks| >= MAX_BLOCKS then Found(s.blocks, s.pos)
    else if s.open && b[s.pos] == '[' then Failed(NestedOpen, s.pos, s.line, s.column)
    else if !s.open && b[s.pos] == ']' then Failed(UnmatchedClose, s.pos, s.line, s.column)
    else ScanFrom(b, Consume(s, b[s.pos]))
  }

  function Scan(b: seq<char>): ScanOutcome {
    ScanFrom(b, Start)
  }

  // ----- Reference definitions in terms of the text -----

  /** Number of newlines in s: the zero-based line of the position after s. */
  function Lines(s: seq<char>): nat {
    if s == [] then 0 else Lines(s[..|s| - 1]) + (if s[|s| - 1] == '\n' then 1 else 0)
  }

  /** Characters since the last newline in s: the zero-based column of the position after s. */
  function Column(s: seq<char>): nat {
    if s == [] then 0 else if s[|s| - 1] == '\n' then 0 else Column(s[..|s| - 1]) + 1
  }

  /** Number of ']' in b[..i]. */
  function Closes(b: seq<char>, i: nat): nat
    requires i <= |b|
  {
    if i == 0 then 0 else Closes(b, i - 1) + (if b[i - 1] == ']' then 1 else 0)
  }

  /** The last bracket character in b[..i], if any. */
  function LastBracket(b: seq<char>, i: nat): Option<char>
    requires i <= |b|
  {
    if i == 0 then None
    else if IsBracket(b[i - 1]) then Some(b[i - 1])
    else LastBracket(b, i - 1)
  }

  /** The bracket at x (if any) is allowed: '[' only when no block is open, ']' only when one is. */
  predicate Balanced(b: seq<char>, x: nat)
    requires x < |b|
  {
    (b[x] == '[' ==> LastBracket(b, x) != Some('[')) &&
    (b[x] == ']' ==> LastBracket(b, x) == Some('['))
  }

  /** blk is a genuine block of b that closes before position limit. */
  ghost predicate BlockIn(b: seq<char>, blk: Block, limit: nat) {
    0 < blk.start <= blk.close < limit <= |b| &&
    b[blk.start - 1] == '[' && b[blk.close] == ']' &&
    forall y :: blk.start <= y < blk.close ==> !IsBracket(b[y])
  }

  /** Some block of blocks closes at x. */
  ghost predicate ClosesBlock(blocks: seq<Block>, x: nat) {
    exists k :: 0 <= k < |blocks| && blocks[k].close == x
  }

  /** blocks are, in source order, the blocks closed in b[..limit], whose brackets are all allowed. */
  ghost predicate BlocksOf(b: seq<char>, blocks: seq<Block>, limit: nat) {
    limit <= |b| && |blocks| <= MAX_BLOCKS &&
    (forall x :: 0 <= x < limit ==> Balanced(b, x)) &&
    |blocks| == Closes(b, limit) &&
    (forall k :: 0 <= k < |blocks| ==> BlockIn(b, blocks[k], limit)) &&
    (forall x :: 0 <= x < limit && b[x] == ']' ==> ClosesBlock(blocks, x)) &&
    (forall j, k :: 0 <= j < k < |blocks| ==> blocks[j].close + 1 < blocks[k].start)
  }

  /** What the walk's outcome says about the text. */
  ghost predicate Meaning(b: seq<char>, o: ScanOutcome) {
    match o
    case Found(blocks, stop) =>
      BlocksOf(b, blocks, stop) &&
      (if |blocks| < MAX_BLOCKS then stop == |b| else stop == blocks[MAX_BLOCKS - 1].close + 1)
    case Failed(error, at, line, column) =>
      at < |b| && !Balanced(b, at) && (error == NestedOpen <==> b[at] == '[') &&
      (forall x :: 0 <= x < at ==> Balanced(b, x)) && Closes(b, at) < MAX_BLOCKS &&
      line == Lines(b[..at]) && column == Column(b[..at])
  }

  /** The walk's state at s.pos reflects the text before it. */
  ghost predicate Inv(b: seq<char>, s: ScanState) {
    BlocksOf(b, s.blocks, s.pos) &&
    (s.open <==> LastBracket(b, s.pos) == Some('[')) &&
    (s.open ==>
      0 < s.pending <= s.pos && b[s.pending - 1] == '[' &&
      (forall y :: s.pending <= y < s.pos ==> !IsBracket(b[y])) &&
      (forall k :: 0 <= k < |s.blocks| ==> s.blocks[k].close + 1 < s.pending)) &&
    (|s.blocks| == MAX_BLOCKS ==> s.blocks[MAX_BLOCKS - 1].close + 1 == s.pos) &&
    s.line == Lines(b[..s.pos]) && s.column == Column(b[..s.pos])
  }

  // ----- Properties -----

  lemma PositionStep(b: seq<char>, pos: nat)
    requires pos < |b|
    ensures Lines(b[..pos + 1]) == Lines(b[..pos]) + (if b[pos] == '\n' then 1 else 0)
    ensures Column(b[..pos + 1]) == if b[pos] == '\n' then 0 else Column(b[..pos]) + 1
    ensures LastBracket(b, pos + 1) == if IsBracket(b[pos]) then Some(b[pos]) else LastBracket(b, pos)
    ensures Closes(b, pos + 1) == Closes(b, pos) + (if b[pos] == ']' then 1 else 0)
  {
    assert b[..pos + 1][..pos] == b[..pos];
  }

  /** Consuming a character that closes the open block records that block. */
  lemma CloseKeepsBlocks(b: seq<char>, s: ScanState)
    requires Inv(b, s) && s.pos < |b| && |s.blocks| < MAX_BLOCKS
    requires s.open && b[s.pos] == ']'
    ensures BlocksOf(b, Consume(s, b[s.pos]).blocks, s.pos + 1)
  {
    var blk := Block(s.pending, s.pos);
    PositionStep(b, s.pos);
    assert Consume(s, b[s.pos]).blocks == s.blocks + [blk];
    AppendBlock(b, s.blocks, blk);
  }

  /** The block closing at blk.close, after the blocks found before it, extends them. */
  lemma AppendBlock(b: seq<char>, blocks: seq<Block>, blk: Block)
    requires BlocksOf(b, blocks, blk.close) && |blocks| < MAX_BLOCKS
    requires BlockIn(b, blk, blk.close + 1) && Balanced(b, blk.close)
    requires Closes(b, blk.close + 1) == Closes(b, blk.close) + 1
    requires forall k :: 0 <= k < |blocks| ==> blocks[k].close + 1 < blk.start
    ensures BlocksOf(b, blocks + [blk], blk.close + 1)
  {
    AppendKeepsBlockIn(b, blocks, blk);
    AppendClosesAll(b, blocks, blk);
    AppendKeepsApart(blocks, blk);
  }

  lemma AppendKeepsBlockIn(b: seq<char>, blocks: seq<Block>, blk: Block)
    requires forall k :: 0 <= k < |blocks| ==> BlockIn(b, blocks[k], blk.close)
    requires BlockIn(b, blk, blk.close + 1)
    ensures forall k :: 0 <= k < |blocks| + 1 ==> BlockIn(b, (blocks + [blk])[k], blk.close + 1)
  {
    var t := blocks + [blk];
    forall k | 0 <= k < |t| ensures BlockIn(b, t[k], blk.close + 1) {
      if k < |blocks| {
        assert t[k] == blocks[k] && BlockIn(b, blocks[k], blk.close);
      }
    }
  }

  lemma AppendClosesAll(b: seq<char>, blocks: seq<Block>, blk: Block)
    requires blk.close < |b|
    requires forall x :: 0 <= x < blk.close && b[x] == ']' ==> ClosesBlock(blocks, x)
    ensures forall x :: 0 <= x < blk.close + 1 && b[x] == ']' ==> ClosesBlock(blocks + [blk], x)
  {
    var t := blocks + [blk];
    forall x | 0 <= x < blk.close + 1 && b[x] == ']' ensures ClosesBlock(t, x) {
      if x < blk.close {
        var k :| 0 <= k < |blocks| && blocks[k].close == x;
        assert t[k] == blocks[k];
      } else {
        assert t[|blocks|] == blk;
      }
    }
  }

  lemma AppendKeepsApart(blocks: seq<Block>, blk: Block)
    requires forall j, k :: 0 <= j < k < |blocks| ==> blocks[j].close + 1 < blocks[k].start
    requires forall k :: 0 <= k < |blocks| ==> blocks[k].close + 1 < blk.start
    ensures forall j, k :: 0 <= j < k < |blocks| + 1 ==> (blocks + [blk])[j].close + 1 < (blocks + [blk])[k].start
  {
    var t := blocks + [blk];
    forall j, k | 0 <= j < k < |t| ensures t[j].close + 1 < t[k].start {
      if k < |blocks| {
        assert t[j] == blocks[j] && t[k] == blocks[k];
      }
    }
  }

  /** Consuming any other allowed character keeps the blocks found so far. */
  lemma OtherKeepsBlocks(b: seq<char>, s: ScanState)
    requires Inv(b, s) && s.pos < |b|
    requires b[s.pos] != ']'
    requires !(s.open && b[s.pos] == '[')
    ensures BlocksOf(b, s.blocks, s.pos + 1)
  {
    PositionStep(b, s.pos);
    assert Balanced(b, s.pos);
    forall k | 0 <= k < |s.blocks| ensures BlockIn(b, s.blocks[k], s.pos + 1) {
      assert BlockIn(b, s.blocks[k], s.pos);
    }
    forall x | 0 <= x < s.pos + 1 && b[x] == ']' ensures ClosesBlock(s.blocks, x) {
      assert x < s.pos;
    }
  }

  lemma ConsumeKeepsInv(b: seq<char>, s: ScanState)
    requires Inv(b, s) && s.pos < |b| && |s.blocks| < MAX_BLOCKS
    requires !(s.open && b[s.pos] == '[') && !(!s.open && b[s.pos] == ']')
    ensures Inv(b, Consume(s, b[s.pos]))
  {
    PositionStep(b, s.pos);
    if b[s.pos] == ']' {
      CloseKeepsBlocks(b, s);
    } else {
      OtherKeepsBlocks(b, s);
    }
  }

  lemma {:induction false} ScanFromMeaning(b: seq<char>, s: ScanState)
    requires Inv(b, s)
    ensures Meaning(b, ScanFrom(b, s))
    decreases |b| - s.pos
  {
    if s.pos >= |b| || |s.blocks| >= MAX_BLOCKS {
    } else if s.open && b[s.pos] == '[' {
    } else if !s.open && b[s.pos] == ']' {
    } else {
      ConsumeKeepsInv(b, s);
      ScanFromMeaning(b, Consume(s, b[s.pos]));
    }
  }

  /** The walk's outcome means what Meaning says: it finds exactly the well-bracketed blocks or the first bad bracket. */
  lemma ScanMeaning(b: seq<char>)
    ensures Meaning(b, Scan(b))
  {
    assert b[..0] == [];
    ScanFromMeaning(b, Start);
  }

  lemma {:induction false} ClosesMonotone(b: seq<char>, i: nat, j: nat)
    requires i <= j <= |b|
    ensures Closes(b, i) <= Closes(b, j)
    decreases j - i
  {
    if i < j {
      ClosesMonotone(b, i, j - 1);
    }
  }

  /**
   * The walk fails exactly when some bracket before the 32nd ']' is not allowed:
   * a '[' while a block is open, or a ']' while none is.
   */
  lemma ScanFailsIffUnbalanced(b: seq<char>)
    ensures Scan(b).Failed? <==>
      exists x :: 0 <= x < |b| && !Balanced(b, x) && Closes(b, x) < MAX_BLOCKS
  {
    ScanMeaning(b);
    match Scan(b)
    case Failed(_, at, _, _) =>
      assert !Balanced(b, at) && Closes(b, at) < MAX_BLOCKS;
    case Found(blocks, stop) =>
      forall x | 0 <= x < |b| && Closes(b, x) < MAX_BLOCKS ensures Balanced(b, x) {
        if x >= stop {
          ClosesMonotone(b, stop, x);
        }
      }
  }

  /** The bytes the walk overwrites: every ']' before position upto becomes NUL. */
  function Blank(b: seq<char>, upto: nat): (r: seq<char>)
    ensures |r| == |b|
  {
    seq(|b|, x requires 0 <= x < |b| => if x < upto && b[x] == ']' then '\0' else b[x])
  }

  /** After a successful walk, exactly the closing bracket of each block found has become NUL. */
  lemma BlankClosesExactlyTheBlocks(b: seq<char>)
    requires Scan(b).Found?
    ensures var r := Blank(b, Scan(b).stop);
      forall x :: 0 <= x < |b| ==> r[x] == if ClosesBlock(Scan(b).blocks, x) then '\0' else b[x]
  {
    ScanMeaning(b);
    var blocks := Scan(b).blocks;
    var stop := Scan(b).stop;
    forall x | 0 <= x < |b| && ClosesBlock(blocks, x) ensures x < stop && b[x] == ']' {
      var k :| 0 <= k < |blocks| && blocks[k].close == x;
      assert BlockIn(b, blocks[k], stop);
    }
  }

  /** The walk has finished by position k: it stopped at the block limit or failed before k. */
  ghost predicate Settled(o: ScanOutcome, k: nat) {
    match o
    case Found(blocks, stop) => |blocks| >= MAX_BLOCKS && stop <= k
    case Failed(_, at, _, _) => at < k
  }

  lemma {:induction false} ScanFromAdvances(b: seq<char>, s: ScanState)
    ensures match ScanFrom(b, s)
      case Found(blocks, stop) => s.pos <= stop && (stop == s.pos ==> blocks == s.blocks)
      case Failed(_, at, _, _) => s.pos <= at
    decreases |b| - s.pos
  {
    if s.pos >= |b| || |s.blocks| >= MAX_BLOCKS {
    } else if s.open && b[s.pos] == '[' {
    } else if !s.open && b[s.pos] == ']' {
    } else {
      ScanFromAdvances(b, Consume(s, b[s.pos]));
    }
  }

  /** A walk that settles by position k reads nothing at or after k. */
  lemma {:induction false} ScanFromPrefix(b: seq<char>, b': seq<char>, s: ScanState, k: nat)
    requires s.pos <= k <= |b| && k <= |b'| && b[..k] == b'[..k]
    requires Settled(ScanFrom(b, s), k)
    ensures ScanFrom(b', s) == ScanFrom(b, s)
    decreases |b| - s.pos
  {
    if |s.blocks| < MAX_BLOCKS {
      ScanFromAdvances(b, s);
      assert s.pos < k;
      assert b[s.pos] == b[..k][s.pos] == b'[s.pos];
      if !(s.open && b[s.pos] == '[') && !(!s.open && b[s.pos] == ']') {
        ScanFromPrefix(b, b', Consume(s, b[s.pos]), k);
      }
    }
  }

  /** Once MAX_BLOCKS blocks are found the rest of the buffer is not read, not even for bracket errors. */
  lemma ScanIgnoresRestAfterLimit(b: seq<char>, rest: seq<char>)
    requires Scan(b).Found? && |Scan(b).blocks| == MAX_BLOCKS
    ensures Scan(b[..Scan(b).stop] + rest) == Scan(b)
  {
    ScanMeaning(b);
    var stop := Scan(b).stop;
    var b' := b[..stop] + rest;
    assert b[..stop] == b'[..stop];
    ScanFromPrefix(b, b', Start, stop);
  }

  /** A bracket error is reported whatever follows the offending bracket. */
  lemma ScanErrorIgnoresRest(b: seq<char>, rest: seq<char>)
    requires Scan(b).Failed?
    ensures Scan(b[..Scan(b).at + 1] + rest) == Scan(b)
  {
    ScanMeaning(b);
    var k := Scan(b).at + 1;
    var b' := b[..k] + rest;
    assert b[..k] == b'[..k];
    ScanFromPrefix(b, b', Start, k);
  }
}
