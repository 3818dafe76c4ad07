/**
 * parseFieldInfo and parseBlock.  The three point-source counters are globals in the
 * program, shared by every call and never reset; here they are the fields of one
 * Parser object, and `hazards` records, as ghost state, each place where the program
 * would have undefined or evidently unintended behaviour.  Both methods are proved
 * against the functions of Dispatch (one block) and BracketScanner (the bracket walk).
 */
module FiParser {
  import opened Wrappers
  import opened Tokenizer
  import opened FieldInfo
  import opened Decoder
  import opened Dispatch
  import opened BracketScanner

  /** The start of each block found, in order. */
  function Starts(blocks: seq<Block>): (r: seq<nat>)
    ensures |r| == |blocks|
  {
    seq(|blocks|, k requires 0 <= k < |blocks| => blocks[k].start)
  }

  /**
   * After a successful walk over a terminated buffer, every block found starts in the
   * buffer with its closing bracket, now NUL, before the final byte.
   */
  lemma BlocksReady(b: seq<char>)
    requires Terminated(b) && Scan(b).Found?
    ensures var blank := Blank(b, Scan(b).stop);
      Terminated(blank) &&
      forall k :: 0 <= k < |Scan(b).blocks| ==>
        Starts(Scan(b).blocks)[k] < |blank| && Ready(blank, Starts(Scan(b).blocks)[k])
  {
    ScanMeaning(b);
    BlankClosesExactlyTheBlocks(b);
    var blocks := Scan(b).blocks;
    var blank := Blank(b, Scan(b).stop);
    forall k | 0 <= k < |blocks|
      ensures Starts(blocks)[k] < |blank| && Ready(blank, Starts(blocks)[k])
    {
      var blk := blocks[k];
      assert BlockIn(b, blk, Scan(b).stop);
      assert ClosesBlock(blocks, blk.close);
      assert blank[blk.close] == '\0';
    }
  }

  lemma Regroup(a: seq<Hazard>, b: seq<Hazard>, c: seq<Hazard>)
    ensures (a + b) + c == a + (b + c)
  {
  }

  /** The parser's state that outlives a call: the three global point-source counters. */
  class Parser {
    var loc: nat
    var freq: nat
    var phase: nat
    ghost var hazards: seq<Hazard>

    /** The counters as the program starts: all zero. */
    constructor ()
      ensures loc == 0 && freq == 0 && phase == 0 && hazards == []
    {
      loc, freq, phase := 0, 0, 0;
      hazards := [];
    }

    ghost function Counts(): Counters
      reads this
    {
      Counters(loc, freq, phase)
    }

    /** The buffer, descriptors, counters and hazards are those of outcome o, reached from hazards h0. */
    ghost predicate Reached(o: Outcome, h0: seq<Hazard>, buf: array<char>, fim: FieldInfoMap, fdm: FieldDataMap)
      reads this, buf, Arrays(fim, fdm)
    {
      buf[..] == o.world.buf && Snapshot(fim, fdm) == o.world.scene && Counts() == o.world.counters &&
      hazards == h0 + o.hazards
    }

    /** The branch of parseBlock for a recognised name, whose data starts at cdata. */
    method Route(name: Name, buf: array<char>, cdata: nat, block: nat, sc: Scanners,
                 fim: FieldInfoMap, fdm: FieldDataMap) returns (count: nat)
      requires Terminated(buf[..]) && cdata < buf.Length
      requires Separate(fim, fdm) && buf !in fim.Repr && buf !in fdm.Repr
      modifies this, buf, fim.Repr, fdm.Repr
      ensures var o := NamedEffect(name, old(buf[..]), cdata, old(Snapshot(fim, fdm)), old(Counts()), sc, block);
        Reached(o, old(hazards), buf, fim, fdm) && o.numtokens == Some(count)
    {
      match name
      case MaterialC => count := ReadMaterialC(buf, cdata, block, sc, fim, fdm);
      case PointSourceNumber => count := ReadSourceNumber(buf, cdata, block, sc, fim, fdm);
      case PointSource => count := ReadCombinedRecord(buf, cdata, block, sc, fim, fdm);
      case PointSourceLocation => count := ReadLocations(buf, cdata, block, sc, fim, fdm);
      case PointSourceFrequency => count := ReadFrequencies(buf, cdata, block, sc, fim, fdm);
      case PointSourcePhase => count := ReadPhases(buf, cdata, block, sc, fim, fdm);
      case FieldOffset => count := ReadOffset(buf, cdata, block, sc, fim, fdm);
      case FieldDimensions => count := ReadDimensions(buf, cdata, block, sc, fim, fdm);
      case FieldSize => count := ReadSize(buf, cdata, block, sc, fim, fdm);
      case FieldMax => count := ReadMax(buf, cdata, block, sc, fim, fdm);
      case FieldMin => count := ReadMin(buf, cdata, block, sc, fim, fdm);
    }

    /** Material-C: one float into mat_c. */
    method ReadMaterialC(buf: array<char>, cdata: nat, block: nat, sc: Scanners, fim: FieldInfoMap, fdm: FieldDataMap)
      returns (count: nat)
      requires Terminated(buf[..]) && cdata < buf.Length
      requires Separate(fim, fdm) && buf !in fim.Repr && buf !in fdm.Repr
      modifies buf, fim.matC
      ensures var o := MaterialCEffect(old(buf[..]), cdata, old(Snapshot(fim, fdm)), old(Counts()), sc, block);
        Reached(o, old(hazards), buf, fim, fdm) && o.numtokens == Some(count)
    {
      count := ParseData(buf, cdata, 1, Float, sc.toFloat, fim.matC, 0);
    }

    /** PointSource-Number: one integer into psn. */
    method ReadSourceNumber(buf: array<char>, cdata: nat, block: nat, sc: Scanners, fim: FieldInfoMap, fdm: FieldDataMap)
      returns (count: nat)
      requires Terminated(buf[..]) && cdata < buf.Length
      requires Separate(fim, fdm) && buf !in fim.Repr && buf !in fdm.Repr
      modifies buf, fim.psn
      ensures var o := SourceNumberEffect(old(buf[..]), cdata, old(Snapshot(fim, fdm)), old(Counts()), sc, block);
        Reached(o, old(hazards), buf, fim, fdm) && o.numtokens == Some(count)
    {
      count := ParseData(buf, cdata, 1, Int, sc.toInt, fim.psn, 0);
    }

    /** PointSource: one combined record at the highest counter, then all three counters move past it. */
    method ReadCombinedRecord(buf: array<char>, cdata: nat, block: nat, sc: Scanners, fim: FieldInfoMap, fdm: FieldDataMap)
      returns (count: nat)
      requires Terminated(buf[..]) && cdata < buf.Length
      requires Separate(fim, fdm) && buf !in fim.Repr && buf !in fdm.Repr
      modifies this, buf, fim.psLoc, fim.psFreq, fim.psPhase
      ensures var o := CombinedRecordEffect(old(buf[..]), cdata, old(Snapshot(fim, fdm)), old(Counts()), sc, block);
        Reached(o, old(hazards), buf, fim, fdm) && o.numtokens == Some(count)
    {
      ghost var s0, b0 := Snapshot(fim, fdm), buf[..];
      var i := Max3(loc, freq, phase);
      count := ParsePointSource(buf, cdata, i, sc.toFloat, fim);
      ghost var r := RecordEffect(b0, cdata, i, sc.toFloat, s0.psLoc, s0.psFreq, s0.psPhase);
      assert Snapshot(fim, fdm) == s0.(psLoc := r.1, psFreq := r.2, psPhase := r.3);
      var j := if count > 0 then 1 else 0;
      loc, freq, phase := i + j, i + j, i + j;
      // the store into tokens[4] and a record index past the arrays are recorded, not performed
      ghost var overrun := if |Tokens(b0, cdata)| >= RECORD_TOKENS then [TokenSlotOverrun(block)] else [];
      ghost var past := if i >= MAX_POINT_SOURCE && count > 0 then [IndexPastCapacity(block, i)] else [];
      hazards := hazards + (overrun + past);
    }

    /** PointSource-Location: coordinates from ps_loc[NUM_DIMS * loc] on, then loc advances by whole sources. */
    method ReadLocations(buf: array<char>, cdata: nat, block: nat, sc: Scanners, fim: FieldInfoMap, fdm: FieldDataMap)
      returns (count: nat)
      requires Terminated(buf[..]) && cdata < buf.Length
      requires Separate(fim, fdm) && buf !in fim.Repr && buf !in fdm.Repr
      modifies this, buf, fim.psLoc
      ensures var o := LocationEffect(old(buf[..]), cdata, old(Snapshot(fim, fdm)), old(Counts()), sc, block);
        Reached(o, old(hazards), buf, fim, fdm) && o.numtokens == Some(count)
    {
      ghost var s0 := Snapshot(fim, fdm);
      ghost var o := LocationEffect(buf[..], cdata, s0, Counts(), sc, block);
      ghost var r := DataEffect(buf[..], cdata, NUM_DIMS * (MAX_POINT_SOURCE - loc), Float, sc.toFloat, s0.psLoc, NUM_DIMS * loc);
      count := ParseData(buf, cdata, NUM_DIMS * (MAX_POINT_SOURCE - loc), Float, sc.toFloat, fim.psLoc, NUM_DIMS * loc);
      assert buf[..] == r.0 && fim.psLoc[..] == r.1 && count == r.2;
      assert Snapshot(fim, fdm) == s0.(psLoc := fim.psLoc[..]);
      loc := loc + LocationAdvance(count);
      ghost var empty := if count == 0 then [EmptyLocationBlock(block)] else [];
      assert o.world.counters == Counts();
      assert o.world == World(buf[..], Snapshot(fim, fdm), Counts());
      assert o.numtokens == Some(count) && o.hazards == empty;
      hazards := hazards + empty;
    }

    /** PointSource-Frequency: values from ps_freq[freq] on, then freq advances by the count. */
    method ReadFrequencies(buf: array<char>, cdata: nat, block: nat, sc: Scanners, fim: FieldInfoMap, fdm: FieldDataMap)
      returns (count: nat)
      requires Terminated(buf[..]) && cdata < buf.Length
      requires Separate(fim, fdm) && buf !in fim.Repr && buf !in fdm.Repr
      modifies this, buf, fim.psFreq
      ensures var o := FrequencyEffect(old(buf[..]), cdata, old(Snapshot(fim, fdm)), old(Counts()), sc, block);
        Reached(o, old(hazards), buf, fim, fdm) && o.numtokens == Some(count)
    {
      ghost var s0 := Snapshot(fim, fdm);
      ghost var o := FrequencyEffect(buf[..], cdata, s0, Counts(), sc, block);
      ghost var r := DataEffect(buf[..], cdata, MAX_POINT_SOURCE - freq, Float, sc.toFloat, s0.psFreq, freq);
      count := ParseData(buf, cdata, MAX_POINT_SOURCE - freq, Float, sc.toFloat, fim.psFreq, freq);
      assert buf[..] == r.0 && fim.psFreq[..] == r.1 && count == r.2;
      assert Snapshot(fim, fdm) == s0.(psFreq := fim.psFreq[..]);
      freq := freq + count;
      assert o.world == World(buf[..], Snapshot(fim, fdm), Counts());
    }

    /** PointSource-Phase: values from ps_phase[phase] on, then phase advances by the count. */
    method ReadPhases(buf: array<char>, cdata: nat, block: nat, sc: Scanners, fim: FieldInfoMap, fdm: FieldDataMap)
      returns (count: nat)
      requires Terminated(buf[..]) && cdata < buf.Length
      requires Separate(fim, fdm) && buf !in fim.Repr && buf !in fdm.Repr
      modifies this, buf, fim.psPhase
      ensures var o := PhaseEffect(old(buf[..]), cdata, old(Snapshot(fim, fdm)), old(Counts()), sc, block);
        Reached(o, old(hazards), buf, fim, fdm) && o.numtokens == Some(count)
    {
      ghost var s0 := Snapshot(fim, fdm);
      ghost var o := PhaseEffect(buf[..], cdata, s0, Counts(), sc, block);
      ghost var r := DataEffect(buf[..], cdata, MAX_POINT_SOURCE - phase, Float, sc.toFloat, s0.psPhase, phase);
      count := ParseData(buf, cdata, MAX_POINT_SOURCE - phase, Float, sc.toFloat, fim.psPhase, phase);
      assert buf[..] == r.0 && fim.psPhase[..] == r.1 && count == r.2;
      assert Snapshot(fim, fdm) == s0.(psPhase := fim.psPhase[..]);
      phase := phase + count;
      assert o.world == World(buf[..], Snapshot(fim, fdm), Counts());
    }

    /** Field-Offset: NUM_DIMS floats into fieldoffset. */
    method ReadOffset(buf: array<char>, cdata: nat, block: nat, sc: Scanners, fim: FieldInfoMap, fdm: FieldDataMap)
      returns (count: nat)
      requires Terminated(buf[..]) && cdata < buf.Length
      requires Separate(fim, fdm) && buf !in fim.Repr && buf !in fdm.Repr
      modifies buf, fim.fieldOffset
      ensures var o := OffsetEffect(old(buf[..]), cdata, old(Snapshot(fim, fdm)), old(Counts()), sc, block);
        Reached(o, old(hazards), buf, fim, fdm) && o.numtokens == Some(count)
    {
      count := ParseData(buf, cdata, NUM_DIMS, Float, sc.toFloat, fim.fieldOffset, 0);
    }

    /** Field-Dimensions: NUM_DIMS floats into fielddims. */
    method ReadDimensions(buf: array<char>, cdata: nat, block: nat, sc: Scanners, fim: FieldInfoMap, fdm: FieldDataMap)
      returns (count: nat)
      requires Terminated(buf[..]) && cdata < buf.Length
      requires Separate(fim, fdm) && buf !in fim.Repr && buf !in fdm.Repr
      modifies buf, fim.fieldDims
      ensures var o := DimensionsEffect(old(buf[..]), cdata, old(Snapshot(fim, fdm)), old(Counts()), sc, block);
        Reached(o, old(hazards), buf, fim, fdm) && o.numtokens == Some(count)
    {
      count := ParseData(buf, cdata, NUM_DIMS, Float, sc.toFloat, fim.fieldDims, 0);
    }

    /** Field-Size: NUM_DIMS unsigned integers into fieldsize. */
    method ReadSize(buf: array<char>, cdata: nat, block: nat, sc: Scanners, fim: FieldInfoMap, fdm: FieldDataMap)
      returns (count: nat)
      requires Terminated(buf[..]) && cdata < buf.Length
      requires Separate(fim, fdm) && buf !in fim.Repr && buf !in fdm.Repr
      modifies buf, fim.fieldSize
      ensures var o := SizeEffect(old(buf[..]), cdata, old(Snapshot(fim, fdm)), old(Counts()), sc, block);
        Reached(o, old(hazards), buf, fim, fdm) && o.numtokens == Some(count)
    {
      count := ParseData(buf, cdata, NUM_DIMS, UnsignedInt, sc.toUnsigned, fim.fieldSize, 0);
    }

    /** Field-Max: set written to 2, then one float into field_max. */
    method ReadMax(buf: array<char>, cdata: nat, block: nat, sc: Scanners, fim: FieldInfoMap, fdm: FieldDataMap)
      returns (count: nat)
      requires Terminated(buf[..]) && cdata < buf.Length
      requires Separate(fim, fdm) && buf !in fim.Repr && buf !in fdm.Repr
      modifies buf, fdm.written, fdm.fieldMax
      ensures var o := MaxEffect(old(buf[..]), cdata, old(Snapshot(fim, fdm)), old(Counts()), sc, block);
        Reached(o, old(hazards), buf, fim, fdm) && o.numtokens == Some(count)
    {
      fdm.written[0] := 2;
      count := ParseData(buf, cdata, 1, Float, sc.toFloat, fdm.fieldMax, 0);
    }

    /** Field-Min: set written to 2, then one float into field_min. */
    method ReadMin(buf: array<char>, cdata: nat, block: nat, sc: Scanners, fim: FieldInfoMap, fdm: FieldDataMap)
      returns (count: nat)
      requires Terminated(buf[..]) && cdata < buf.Length
      requires Separate(fim, fdm) && buf !in fim.Repr && buf !in fdm.Repr
      modifies buf, fdm.written, fdm.fieldMin
      ensures var o := MinEffect(old(buf[..]), cdata, old(Snapshot(fim, fdm)), old(Counts()), sc, block);
        Reached(o, old(hazards), buf, fim, fdm) && o.numtokens == Some(count)
    {
      fdm.written[0] := 2;
      count := ParseData(buf, cdata, 1, Float, sc.toFloat, fdm.fieldMin, 0);
    }

    /**
     * parseBlock: cut the block name out with strtok, look it up, and parse the data
     * that starts one byte past the name.  The result is the number of values read,
     * or None where the program returns an uninitialised count.
     */
    method ParseBlock(buf: array<char>, block: nat, sc: Scanners, fim: FieldInfoMap, fdm: FieldDataMap)
      returns (numtokens: Option<nat>)
      requires block < buf.Length && Ready(buf[..], block)
      requires Separate(fim, fdm) && buf !in fim.Repr && buf !in fdm.Repr
      modifies this, buf, fim.Repr, fdm.Repr
      ensures var o := BlockEffect(World(old(buf[..]), old(Snapshot(fim, fdm)), old(Counts())), block, sc);
        Reached(o, old(hazards), buf, fim, fdm) && numtokens == o.numtokens
    {
      ghost var w := World(buf[..], Snapshot(fim, fdm), Counts());
      var token, cursor := Strtok(buf, block);
      if token.None? {
        hazards := hazards + [MissingName(block)];
        return None;
      }
      NameInside(w.buf, block);
      ghost var o;
      numtokens, o := ParseNamed(buf, token.value, block, sc, fim, fdm, w);
    }

    /** The rest of parseBlock once strtok has cut out the name t. */
    method ParseNamed(buf: array<char>, t: Span, block: nat, sc: Scanners, fim: FieldInfoMap, fdm: FieldDataMap,
                      ghost w: World)
      returns (numtokens: Option<nat>, ghost o: Outcome)
      requires Terminated(w.buf) && t.start < t.end && t.end + 1 < |w.buf| && w.scene.Shaped()
      requires buf[..] == Cut(w.buf, Some(t)) && Counts() == w.counters
      requires Separate(fim, fdm) && buf !in fim.Repr && buf !in fdm.Repr && Snapshot(fim, fdm) == w.scene
      modifies this, buf, fim.Repr, fdm.Repr
      ensures o == NamedBlockEffect(w, t, block, sc)
      ensures Reached(o, old(hazards), buf, fim, fdm) && numtokens == o.numtokens
    {
      CutKeepsNuls(w.buf, Some(t));
      assert buf[t.start..t.end] == Text(w.buf, t);
      var name := Classify(buf[t.start..t.end]);
      if name.None? {
        UnknownBlockEffect(w, t, block, sc);
        return None, Outcome(w.(buf := Cut(w.buf, Some(t))), None, []);
      }
      RecognisedBlockEffect(w, t, block, sc, name.value);
      var count;
      count, o := ParseRecognised(name.value, buf, t.end, block, sc, fim, fdm, w.buf[t.end] == '\0',
                                  Cut(w.buf, Some(t)), w.scene, w.counters);
      numtokens := Some(count);
    }

    /**
     * parseBlock's branch for a recognised name ending at `end`: DataPastNul is logged
     * when the byte strtok cut there was already NUL, then the name's branch reads
     * the data from end + 1.
     */
    method ParseRecognised(name: Name, buf: array<char>, end: nat, block: nat, sc: Scanners,
                           fim: FieldInfoMap, fdm: FieldDataMap, ghost nul: bool,
                           ghost b: seq<char>, ghost s: Scene, ghost k: Counters)
      returns (count: nat, ghost r: Outcome)
      requires Terminated(b) && end + 1 < |b| && s.Shaped()
      requires Separate(fim, fdm) && buf !in fim.Repr && buf !in fdm.Repr
      requires buf[..] == b && Snapshot(fim, fdm) == s && Counts() == k
      modifies this, buf, fim.Repr, fdm.Repr
      ensures var o := NamedEffect(name, b, end + 1, s, k, sc, block);
        r == o.(hazards := (if nul then [DataPastNul(block)] else []) + o.hazards) && o.numtokens == Some(count)
      ensures Reached(r, old(hazards), buf, fim, fdm)
    {
      ghost var past := if nul then [DataPastNul(block)] else [];
      ghost var o := NamedEffect(name, b, end + 1, s, k, sc, block);
      hazards := hazards + past;
      count := Route(name, buf, end + 1, block, sc, fim, fdm);
      Regroup(old(hazards), past, o.hazards);
      r := o.(hazards := past + o.hazards);
    }

    /**
     * parseFieldInfo on the whole buffer.  The first loop walks the text, records where
     * each block starts and overwrites each closing ']' with NUL; on a nested '[' or a
     * stray ']' it returns 1 at once, with the brackets closed so far already
     * overwritten and no block parsed.  Otherwise the second loop parses the blocks in
     * order and the result is 0.
     */
    method ParseFieldInfo(buf: array<char>, sc: Scanners, fim: FieldInfoMap, fdm: FieldDataMap)
      returns (result: int)
      requires Terminated(buf[..])
      requires Separate(fim, fdm) && buf !in fim.Repr && buf !in fdm.Repr
      modifies this, buf, fim.Repr, fdm.Repr
      ensures var b0 := old(buf[..]);
        match Scan(b0)
        case Failed(_, at, _, _) =>
          result == 1 && buf[..] == Blank(b0, at) &&
          Snapshot(fim, fdm) == old(Snapshot(fim, fdm)) && Counts() == old(Counts()) && hazards == old(hazards)
        case Found(blocks, stop) =>
          (BlocksReady(b0);
           var r := RunBlocks(World(Blank(b0, stop), old(Snapshot(fim, fdm)), old(Counts())), Starts(blocks), sc);
           result == 0 && buf[..] == r.0.buf && Snapshot(fim, fdm) == r.0.scene && Counts() == r.0.counters &&
           hazards == old(hazards) + r.1)
    {
      ghost var b0 := buf[..];
      var blockStart, numblocks := FindBlocks(buf);
      if numblocks.None? {
        return 1;
      }
      BlocksReady(b0);
      ParseBlocks(buf, blockStart, numblocks.value, sc, fim, fdm, Starts(Scan(b0).blocks));
      return 0;
    }

    /** The second loop of parseFieldInfo: parseBlock on each of the first n block starts, in order. */
    method ParseBlocks(buf: array<char>, blockStart: array<nat>, n: nat, sc: Scanners, fim: FieldInfoMap,
                       fdm: FieldDataMap, ghost starts: seq<nat>)
      requires n <= blockStart.Length && blockStart[..n] == starts
      requires Terminated(buf[..]) && forall k :: 0 <= k < n ==> starts[k] < buf.Length && Ready(buf[..], starts[k])
      requires Separate(fim, fdm) && buf !in fim.Repr && buf !in fdm.Repr
      requires blockStart !in fim.Repr && blockStart !in fdm.Repr
      modifies this, buf, fim.Repr, fdm.Repr
      ensures var r := RunBlocks(World(old(buf[..]), old(Snapshot(fim, fdm)), old(Counts())), starts, sc);
        buf[..] == r.0.buf && Snapshot(fim, fdm) == r.0.scene && Counts() == r.0.counters &&
        hazards == old(hazards) + r.1
    {
      ghost var w0 := World(buf[..], Snapshot(fim, fdm), Counts());
      ghost var h0 := hazards;
      var i := 0;
      assert starts[..0] == [];
      while i < n
        invariant i <= n && blockStart[..n] == starts
        invariant Ran(w0, h0, starts, i, sc, buf, fim, fdm)
      {
        assert blockStart[i] == starts[i];
        ParseNext(buf, blockStart[i], sc, fim, fdm, w0, h0, starts, i);
        i := i + 1;
      }
      assert starts[..i] == starts;
    }

    /** The second loop has parsed the first i blocks of starts, from world w0 and hazards h0. */
    ghost predicate Ran(w0: World, h0: seq<Hazard>, starts: seq<nat>, i: nat, sc: Scanners,
                        buf: array<char>, fim: FieldInfoMap, fdm: FieldDataMap)
      requires w0.scene.Shaped() && Terminated(w0.buf) && i <= |starts|
      requires forall k :: 0 <= k < |starts| ==> starts[k] < |w0.buf| && Ready(w0.buf, starts[k])
      reads this, buf, Arrays(fim, fdm)
    {
      var r := RunBlocks(w0, starts[..i], sc);
      buf[..] == r.0.buf && Snapshot(fim, fdm) == r.0.scene && Counts() == r.0.counters && hazards == h0 + r.1
    }

    /** One pass of the second loop: parseBlock on the i-th block. */
    method ParseNext(buf: array<char>, block: nat, sc: Scanners, fim: FieldInfoMap, fdm: FieldDataMap,
                     ghost w0: World, ghost h0: seq<Hazard>, ghost starts: seq<nat>, ghost i: nat)
      requires w0.scene.Shaped() && Terminated(w0.buf) && i < |starts| && block == starts[i]
      requires forall k :: 0 <= k < |starts| ==> starts[k] < |w0.buf| && Ready(w0.buf, starts[k])
      requires Separate(fim, fdm) && buf !in fim.Repr && buf !in fdm.Repr
      requires Ran(w0, h0, starts, i, sc, buf, fim, fdm)
      modifies this, buf, fim.Repr, fdm.Repr
      ensures Ran(w0, h0, starts, i + 1, sc, buf, fim, fdm)
    {
      RunBlocksStep(w0, starts, i, sc);
      ghost var r := RunBlocks(w0, starts[..i], sc);
      ghost var o := BlockEffect(r.0, block, sc);
      assert World(buf[..], Snapshot(fim, fdm), Counts()) == r.0;
      var _ := ParseBlock(buf, block, sc, fim, fdm);
      Regroup(h0, r.1, o.hazards);
    }
  }

  /**
   * The first loop of parseFieldInfo.  It stops at the end of the buffer or once
   * MAX_BLOCKS blocks have closed.  On success it returns the block starts and their
   * number, with every closing bracket before the stop overwritten; on a bracket error
   * it returns None, having overwritten the brackets closed before the error.
   */
  method FindBlocks(buf: array<char>) returns (blockStart: array<nat>, numblocks: Option<nat>)
    modifies buf
    ensures fresh(blockStart) && blockStart.Length == MAX_BLOCKS
    ensures match Scan(old(buf[..]))
      case Failed(_, at, _, _) => numblocks.None? && buf[..] == Blank(old(buf[..]), at)
      case Found(blocks, stop) =>
        numblocks == Some(|blocks|) && |blocks| <= MAX_BLOCKS && buf[..] == Blank(old(buf[..]), stop) &&
        blockStart[..|blocks|] == Starts(blocks)
  {
    ghost var b0 := buf[..];
    blockStart := new nat[MAX_BLOCKS](_ => 0);
    var i, j, open, line, column := 0, 0, false, 0, 0;
    ghost var pending: nat := 0;
    ghost var blocks: seq<Block> := [];
    while i < buf.Length && j < MAX_BLOCKS
      invariant i <= buf.Length && j == |blocks| <= MAX_BLOCKS
      invariant ScanFrom(b0, ScanState(i, open, pending, blocks, line, column)) == Scan(b0)
      invariant buf[..] == Blank(b0, i)
      invariant blockStart[..j] == Starts(blocks)
      invariant open ==> j < MAX_BLOCKS && blockStart[j] == pending
      decreases buf.Length - i
    {
      ghost var s := ScanState(i, open, pending, blocks, line, column);
      var c := buf[i];
      assert c == b0[i];
      if open {
        if c == ']' {
          buf[i] := '\0';
          blocks := blocks + [Block(pending, i)];
          open := false;
          j := j + 1;
        } else if c == '[' {
          numblocks := None;
          return;
        }
      } else {
        if c == '[' {
          blockStart[j] := i + 1;
          pending := i + 1;
          open := true;
        } else if c == ']' {
          numblocks := None;
          return;
        }
      }
      if c == '\n' {
        line, column := line + 1, 0;
      } else {
        column := column + 1;
      }
      i := i + 1;
      assert ScanState(i, open, pending, blocks, line, column) == Consume(s, c);
      assert buf[..] == Blank(b0, i);
    }
    numblocks := Some(j);
  }
}
