/**
 * What parseBlock does to one block, as a function of the text buffer, the two
 * descriptors and the three point-source fill counters.  BlockEffect is the
 * reference the parser class is proved against; RunBlocks applies it to the
 * blocks in order, as parseFieldInfo's second loop does.
 */
module Dispatch {
  import opened Wrappers
  import opened Tokenizer
  import opened FieldInfo
  import opened Decoder

  /** The three sscanf conversions the parser uses: %f, %d and %u. */
  datatype Scanners = Scanners(
    toFloat: Conversion<real>,
    toInt: Conversion<int>,
    toUnsigned: Conversion<nat>)

  /** The block names parseBlock recognises. */
  datatype Name =
    | MaterialC | PointSourceNumber | PointSource
    | PointSourceLocation | PointSourceFrequency | PointSourcePhase
    | FieldOffset | FieldDimensions | FieldSize | FieldMax | FieldMin

  function NameOf(n: Name): string {
    match n
    case MaterialC => "Material-C"
    case PointSourceNumber => "PointSource-Number"
    case PointSource => "PointSource"
    case PointSourceLocation => "PointSource-Location"
    case PointSourceFrequency => "PointSource-Frequency"
    case PointSourcePhase => "PointSource-Phase"
    case FieldOffset => "Field-Offset"
    case FieldDimensions => "Field-Dimensions"
    case FieldSize => "Field-Size"
    case FieldMax => "Field-Max"
    case FieldMin => "Field-Min"
  }

  /** The names in the order parseBlock compares the block name against them. */
  const Chain: seq<Name> := [MaterialC, PointSourceNumber, PointSource, PointSourceLocation,
                             PointSourceFrequency, PointSourcePhase, FieldOffset, FieldDimensions,
                             FieldSize, FieldMax, FieldMin]

  /** The strcmp chain from its i-th comparison on: the first name spelled exactly as s. */
  function Lookup(s: string, i: nat): Option<Name>
    decreases |Chain| - i
  {
    if i >= |Chain| then None
    else if s == NameOf(Chain[i]) then Some(Chain[i])
    else Lookup(s, i + 1)
  }

  /** The whole strcmp chain: exact, case-sensitive comparison. */
  function Classify(s: string): Option<Name> {
    Lookup(s, 0)
  }

  /** No two names are spelled alike. */
  lemma NameOfInjective(m: Name, n: Name)
    ensures NameOf(m) == NameOf(n) ==> m == n
  {
  }

  lemma {:induction false} LookupSound(s: string, i: nat, n: Name)
    requires Lookup(s, i) == Some(n)
    ensures s == NameOf(n)
    decreases |Chain| - i
  {
    if i < |Chain| && s != NameOf(Chain[i]) {
      LookupSound(s, i + 1, n);
    }
  }

  lemma {:induction false} LookupFinds(s: string, i: nat, n: Name)
    requires i <= |Chain| && s == NameOf(n) && n in Chain[i..]
    ensures Lookup(s, i) == Some(n)
    decreases |Chain| - i
  {
    NameOfInjective(Chain[i], n);
    if Chain[i] != n {
      assert n in Chain[i + 1..] by {
        var j :| i <= j < |Chain| && Chain[j] == n;
        assert Chain[i + 1..][j - i - 1] == n;
      }
      LookupFinds(s, i + 1, n);
    }
  }

  /** A name is recognised exactly when it is spelled as one of the eleven. */
  lemma ClassifyIff(s: string, n: Name)
    ensures Classify(s) == Some(n) <==> s == NameOf(n)
  {
    if Classify(s) == Some(n) {
      LookupSound(s, 0, n);
    }
    if s == NameOf(n) {
      assert n in Chain[0..] by {
        match n
        case MaterialC => assert Chain[0] == n;
        case PointSourceNumber => assert Chain[1] == n;
        case PointSource => assert Chain[2] == n;
        case PointSourceLocation => assert Chain[3] == n;
        case PointSourceFrequency => assert Chain[4] == n;
        case PointSourcePhase => assert Chain[5] == n;
        case FieldOffset => assert Chain[6] == n;
        case FieldDimensions => assert Chain[7] == n;
        case FieldSize => assert Chain[8] == n;
        case FieldMax => assert Chain[9] == n;
        case FieldMin => assert Chain[10] == n;
      }
      LookupFinds(s, 0, n);
    }
  }

  // ----- The fill counters -----

  /** current_point_source_loc, _freq and _phase. */
  datatype Counters = Counters(loc: nat, freq: nat, phase: nat)

  /** The nested conditional parseBlock uses for the combined record's index. */
  function Max3(a: nat, b: nat, c: nat): nat {
    if a < b then (if b < c then c else b) else (if a < c then c else a)
  }

  lemma Max3IsMaximum(a: nat, b: nat, c: nat)
    ensures var m := Max3(a, b, c);
      m >= a && m >= b && m >= c && (m == a || m == b || m == c)
  {
  }

  /** C's integer division, which truncates toward zero. */
  function CDiv(a: int, d: int): int
    requires d > 0
  {
    if a >= 0 then a / d else -((-a) / d)
  }

  /** The quotient truncates: the remainder has the sign of the dividend and is smaller than the divisor. */
  lemma CDivTruncates(a: int, d: int)
    requires d > 0
    ensures var r := a - CDiv(a, d) * d;
      (a >= 0 ==> 0 <= r < d) && (a < 0 ==> -d < r <= 0)
  {
  }

  /** How far a PointSource-Location block moves loc after reading count tokens. */
  function LocationAdvance(count: nat): nat {
    1 + CDiv(count - 1, NUM_DIMS)
  }

  /** One point source per NUM_DIMS coordinates, rounded up; an empty block still counts one. */
  lemma LocationAdvanceValue(count: nat)
    ensures LocationAdvance(count) == if count == 0 then 1 else (count + NUM_DIMS - 1) / NUM_DIMS
  {
  }

  // ----- Undefined or unintended C behaviour -----

  /**
   * Where a block drives the C code into undefined behaviour (MissingName: strlen(NULL);
   * TokenSlotOverrun: a store into tokens[4]; IndexPastCapacity: writes past the
   * point-source arrays) or into defined but evidently unintended behaviour
   * (DataPastNul: the name ended at a NUL, so the data pointer lies past it and a
   * recognised name's branch reads on from there; EmptyLocationBlock: a
   * PointSource-Location block reads nothing, because it is empty or because loc is
   * already at or past MAX_POINT_SOURCE, and loc still advances by one).
   * The model's choice is documented at each.
   */
  datatype Hazard =
    | MissingName(block: nat)
    | DataPastNul(block: nat)
    | TokenSlotOverrun(block: nat)
    | IndexPastCapacity(block: nat, index: nat)
    | EmptyLocationBlock(block: nat)

  // ----- The effect of one block -----

  /** Everything a block can change: the text buffer, both descriptors and the counters. */
  datatype World = World(buf: seq<char>, scene: Scene, counters: Counters)

  /** A block's effect: the new world, parseBlock's return value (None where C leaves it uninitialised) and the hazards met. */
  datatype Outcome = Outcome(world: World, numtokens: Option<nat>, hazards: seq<Hazard>)

  /** parsePointSource from cdata for source index: the buffer, ps_loc, ps_freq and ps_phase after it, and its count. */
  function RecordEffect(b: seq<char>, cdata: nat, index: nat, scan: seq<char> -> Option<real>,
                        loc: seq<real>, freq: seq<real>, phase: seq<real>)
    : (r: (seq<char>, seq<real>, seq<real>, seq<real>, nat))
    requires Terminated(b) && cdata < |b|
    ensures |r.0| == |b| && |r.1| == |loc| && |r.2| == |freq| && |r.3| == |phase|
  {
    var ts := Tokens(b, cdata);
    var n := Min(|ts|, RECORD_TOKENS);
    (CutEnds(b, ts[..Min(|ts|, n + 1)]),
     Store(loc, NUM_DIMS * index, Scanned(scan, b, Coordinates(ts, n))),
     Store(freq, index, Scanned(scan, b, FrequencyPart(ts, n))),
     Store(phase, index, Scanned(scan, b, PhasePart(ts, n))),
     n)
  }

  /** The block starting at `block` lies in a terminated buffer and ends with a NUL before the buffer's last byte. */
  ghost predicate Ready(b: seq<char>, block: nat) {
    Terminated(b) && exists x :: block <= x < |b| - 1 && b[x] == '\0'
  }

  /** Material-C: one float into mat_c. */
  function MaterialCEffect(b: seq<char>, cdata: nat, s: Scene, k: Counters, sc: Scanners, block: nat): Outcome
    requires Terminated(b) && cdata < |b| && s.Shaped()
  {
    var r := DataEffect(b, cdata, 1, Float, sc.toFloat, s.matC, 0);
    Outcome(World(r.0, s.(matC := r.1), k), Some(r.2), [])
  }

  /** PointSource-Number: one integer into psn. */
  function SourceNumberEffect(b: seq<char>, cdata: nat, s: Scene, k: Counters, sc: Scanners, block: nat): Outcome
    requires Terminated(b) && cdata < |b| && s.Shaped()
  {
    var r := DataEffect(b, cdata, 1, Int, sc.toInt, s.psn, 0);
    Outcome(World(r.0, s.(psn := r.1), k), Some(r.2), [])
  }

  /** PointSource: one record at the highest of the three counters, which all move
   * one past it when anything was read. */
  function CombinedRecordEffect(b: seq<char>, cdata: nat, s: Scene, k: Counters, sc: Scanners, block: nat): Outcome
    requires Terminated(b) && cdata < |b| && s.Shaped()
  {
    var i := Max3(k.loc, k.freq, k.phase);
    var r := RecordEffect(b, cdata, i, sc.toFloat, s.psLoc, s.psFreq, s.psPhase);
    var j := if r.4 > 0 then 1 else 0;
    var overrun := if |Tokens(b, cdata)| >= RECORD_TOKENS then [TokenSlotOverrun(block)] else [];
    var past := if i >= MAX_POINT_SOURCE && r.4 > 0 then [IndexPastCapacity(block, i)] else [];
    Outcome(World(r.0, s.(psLoc := r.1, psFreq := r.2, psPhase := r.3), Counters(i + j, i + j, i + j)),
            Some(r.4), overrun + past)
  }

  /** PointSource-Location: coordinates from ps_loc[NUM_DIMS * loc] on; loc advances by whole sources. */
  function LocationEffect(b: seq<char>, cdata: nat, s: Scene, k: Counters, sc: Scanners, block: nat): Outcome
    requires Terminated(b) && cdata < |b| && s.Shaped()
  {
    var r := DataEffect(b, cdata, NUM_DIMS * (MAX_POINT_SOURCE - k.loc), Float, sc.toFloat, s.psLoc, NUM_DIMS * k.loc);
    var empty := if r.2 == 0 then [EmptyLocationBlock(block)] else [];
    Outcome(World(r.0, s.(psLoc := r.1), k.(loc := k.loc + LocationAdvance(r.2))), Some(r.2), empty)
  }

  /** PointSource-Frequency: values from ps_freq[freq] on; freq advances by the count. */
  function FrequencyEffect(b: seq<char>, cdata: nat, s: Scene, k: Counters, sc: Scanners, block: nat): Outcome
    requires Terminated(b) && cdata < |b| && s.Shaped()
  {
    var r := DataEffect(b, cdata, MAX_POINT_SOURCE - k.freq, Float, sc.toFloat, s.psFreq, k.freq);
    Outcome(World(r.0, s.(psFreq := r.1), k.(freq := k.freq + r.2)), Some(r.2), [])
  }

  /** PointSource-Phase: values from ps_phase[phase] on; phase advances by the count. */
  function PhaseEffect(b: seq<char>, cdata: nat, s: Scene, k: Counters, sc: Scanners, block: nat): Outcome
    requires Terminated(b) && cdata < |b| && s.Shaped()
  {
    var r := DataEffect(b, cdata, MAX_POINT_SOURCE - k.phase, Float, sc.toFloat, s.psPhase, k.phase);
    Outcome(World(r.0, s.(psPhase := r.1), k.(phase := k.phase + r.2)), Some(r.2), [])
  }

  /** Field-Offset: NUM_DIMS floats into fieldoffset. */
  function OffsetEffect(b: seq<char>, cdata: nat, s: Scene, k: Counters, sc: Scanners, block: nat): Outcome
    requires Terminated(b) && cdata < |b| && s.Shaped()
  {
    var r := DataEffect(b, cdata, NUM_DIMS, Float, sc.toFloat, s.fieldOffset, 0);
    Outcome(World(r.0, s.(fieldOffset := r.1), k), Some(r.2), [])
  }

  /** Field-Dimensions: NUM_DIMS floats into fielddims. */
  function DimensionsEffect(b: seq<char>, cdata: nat, s: Scene, k: Counters, sc: Scanners, block: nat): Outcome
    requires Terminated(b) && cdata < |b| && s.Shaped()
  {
    var r := DataEffect(b, cdata, NUM_DIMS, Float, sc.toFloat, s.fieldDims, 0);
    Outcome(World(r.0, s.(fieldDims := r.1), k), Some(r.2), [])
  }

  /** Field-Size: NUM_DIMS unsigned integers into fieldsize. */
  function SizeEffect(b: seq<char>, cdata: nat, s: Scene, k: Counters, sc: Scanners, block: nat): Outcome
    requires Terminated(b) && cdata < |b| && s.Shaped()
  {
    var r := DataEffect(b, cdata, NUM_DIMS, UnsignedInt, sc.toUnsigned, s.fieldSize, 0);
    Outcome(World(r.0, s.(fieldSize := r.1), k), Some(r.2), [])
  }

  /** Field-Max: written becomes 2, then one float into field_max. */
  function MaxEffect(b: seq<char>, cdata: nat, s: Scene, k: Counters, sc: Scanners, block: nat): Outcome
    requires Terminated(b) && cdata < |b| && s.Shaped()
  {
    var r := DataEffect(b, cdata, 1, Float, sc.toFloat, s.fieldMax, 0);
    Outcome(World(r.0, s.(written := s.written[0 := 2], fieldMax := r.1), k), Some(r.2), [])
  }

  /** Field-Min: written becomes 2, then one float into field_min. */
  function MinEffect(b: seq<char>, cdata: nat, s: Scene, k: Counters, sc: Scanners, block: nat): Outcome
    requires Terminated(b) && cdata < |b| && s.Shaped()
  {
    var r := DataEffect(b, cdata, 1, Float, sc.toFloat, s.fieldMin, 0);
    Outcome(World(r.0, s.(written := s.written[0 := 2], fieldMin := r.1), k), Some(r.2), [])
  }

  /** The effect of a recognised block whose data starts at cdata, on the buffer b its name was cut from. */
  function NamedEffect(name: Name, b: seq<char>, cdata: nat, s: Scene, k: Counters, sc: Scanners, block: nat)
    : (o: Outcome)
    requires Terminated(b) && cdata < |b| && s.Shaped()
    ensures o.world.scene.Shaped() && |o.world.buf| == |b| && o.numtokens.Some?
  {
    match name
    case MaterialC => MaterialCEffect(b, cdata, s, k, sc, block)
    case PointSourceNumber => SourceNumberEffect(b, cdata, s, k, sc, block)
    case PointSource => CombinedRecordEffect(b, cdata, s, k, sc, block)
    case PointSourceLocation => LocationEffect(b, cdata, s, k, sc, block)
    case PointSourceFrequency => FrequencyEffect(b, cdata, s, k, sc, block)
    case PointSourcePhase => PhaseEffect(b, cdata, s, k, sc, block)
    case FieldOffset => OffsetEffect(b, cdata, s, k, sc, block)
    case FieldDimensions => DimensionsEffect(b, cdata, s, k, sc, block)
    case FieldSize => SizeEffect(b, cdata, s, k, sc, block)
    case FieldMax => MaxEffect(b, cdata, s, k, sc, block)
    case FieldMin => MinEffect(b, cdata, s, k, sc, block)
  }

  /** The name token's end lies before the block's NUL, so the data that follows it is inside the buffer. */
  lemma NameInside(b: seq<char>, block: nat)
    requires Ready(b, block) && block < |b|
    ensures var c := NextToken(b, block);
      c.token.Some? ==> c.token.value.end + 1 < |b|
  {
    var x :| block <= x < |b| - 1 && b[x] == '\0';
    NextTokenStopsAtNul(b, block, x);
  }

  /**
   * parseBlock: strtok the block name, classify it, and route the data after it.
   * A block with no name at all is left alone.
   */
  function BlockEffect(w: World, block: nat, sc: Scanners): (o: Outcome)
    requires Ready(w.buf, block) && block < |w.buf| && w.scene.Shaped()
    ensures o.world.scene.Shaped() && |o.world.buf| == |w.buf|
  {
    var c := NextToken(w.buf, block);
    if c.token.None? then Outcome(w, None, [MissingName(block)])
    else
      NameInside(w.buf, block);
      NamedBlockEffect(w, c.token.value, block, sc)
  }

  /**
   * The rest of parseBlock once strtok has cut out the name t.  The data starts one
   * past the name's end, even when that end is a NUL: the block's own, or one that
   * an earlier block's strtok calls wrote.  DataPastNul records either case when a
   * recognised name's branch reads from there; an unknown name reads nothing.
   */
  function NamedBlockEffect(w: World, t: Span, block: nat, sc: Scanners): (o: Outcome)
    requires Terminated(w.buf) && t.end + 1 < |w.buf| && w.scene.Shaped()
    ensures o.world.scene.Shaped() && |o.world.buf| == |w.buf|
  {
    var b := Cut(w.buf, Some(t));
    CutKeepsNuls(w.buf, Some(t));
    var past := if w.buf[t.end] == '\0' then [DataPastNul(block)] else [];
    match Classify(Text(w.buf, t))
    case None => Outcome(w.(buf := b), None, [])
    case Some(name) =>
      var o := NamedEffect(name, b, t.end + 1, w.scene, w.counters, sc, block);
      o.(hazards := past + o.hazards)
  }

  /** parseFieldInfo's second loop: the blocks in order, each on the world the previous one left. */
  function RunBlocks(w: World, starts: seq<nat>, sc: Scanners): (r: (World, seq<Hazard>))
    requires w.scene.Shaped() && Terminated(w.buf)
    requires forall k :: 0 <= k < |starts| ==> starts[k] < |w.buf| && Ready(w.buf, starts[k])
    ensures r.0.scene.Shaped() && NulsKept(w.buf, r.0.buf) && Terminated(r.0.buf)
    decreases |starts|
  {
    if starts == [] then (w, [])
    else
      var r := RunBlocks(w, starts[..|starts| - 1], sc);
      var last := starts[|starts| - 1];
      ReadyKept(w.buf, r.0.buf, last);
      var o := BlockEffect(r.0, last, sc);
      BlockEffectKeepsNuls(r.0, last, sc);
      (o.world, r.1 + o.hazards)
  }

  /** One more block: the run over the first i + 1 starts is block i applied to the run over the first i. */
  lemma RunBlocksStep(w: World, starts: seq<nat>, i: nat, sc: Scanners)
    requires w.scene.Shaped() && Terminated(w.buf) && i < |starts|
    requires forall k :: 0 <= k < |starts| ==> starts[k] < |w.buf| && Ready(w.buf, starts[k])
    ensures var r := RunBlocks(w, starts[..i], sc);
      starts[i] < |r.0.buf| && Ready(r.0.buf, starts[i]) &&
      var o := BlockEffect(r.0, starts[i], sc);
      RunBlocks(w, starts[..i + 1], sc) == (o.world, r.1 + o.hazards)
  {
    assert starts[..i + 1][..i] == starts[..i];
    var r := RunBlocks(w, starts[..i], sc);
    ReadyKept(w.buf, r.0.buf, starts[i]);
  }

  /** parseData only writes NULs into the buffer, so every NUL stays and the buffer stays terminated. */
  lemma DataEffectKeepsNuls<T>(b: seq<char>, cdata: nat, n: int, kind: DataType, scan: seq<char> -> Option<T>,
                               a: seq<T>, base: nat)
    requires Terminated(b) && cdata < |b|
    ensures var r := DataEffect(b, cdata, n, kind, scan, a, base);
      NulsKept(b, r.0) && Terminated(r.0)
  {
    var ts := Tokens(b, cdata);
    CutEndsKeepsNuls(b, ts[..Min(|ts|, DataCount(kind, n, |ts|) + 1)]);
  }

  lemma RecordEffectKeepsNuls(b: seq<char>, cdata: nat, index: nat, scan: seq<char> -> Option<real>,
                              loc: seq<real>, freq: seq<real>, phase: seq<real>)
    requires Terminated(b) && cdata < |b|
    ensures var r := RecordEffect(b, cdata, index, scan, loc, freq, phase);
      NulsKept(b, r.0) && Terminated(r.0)
  {
    var ts := Tokens(b, cdata);
    CutEndsKeepsNuls(b, ts[..Min(|ts|, Min(|ts|, RECORD_TOKENS) + 1)]);
  }

  lemma NamedEffectKeepsNuls(name: Name, b: seq<char>, cdata: nat, s: Scene, k: Counters, sc: Scanners, block: nat)
    requires Terminated(b) && cdata < |b| && s.Shaped()
    ensures var o := NamedEffect(name, b, cdata, s, k, sc, block);
      NulsKept(b, o.world.buf) && Terminated(o.world.buf)
  {
    match name
    case MaterialC => DataEffectKeepsNuls(b, cdata, 1, Float, sc.toFloat, s.matC, 0);
    case PointSourceNumber => DataEffectKeepsNuls(b, cdata, 1, Int, sc.toInt, s.psn, 0);
    case PointSource =>
      RecordEffectKeepsNuls(b, cdata, Max3(k.loc, k.freq, k.phase), sc.toFloat, s.psLoc, s.psFreq, s.psPhase);
    case PointSourceLocation =>
      DataEffectKeepsNuls(b, cdata, NUM_DIMS * (MAX_POINT_SOURCE - k.loc), Float, sc.toFloat, s.psLoc, NUM_DIMS * k.loc);
    case PointSourceFrequency =>
      DataEffectKeepsNuls(b, cdata, MAX_POINT_SOURCE - k.freq, Float, sc.toFloat, s.psFreq, k.freq);
    case PointSourcePhase =>
      DataEffectKeepsNuls(b, cdata, MAX_POINT_SOURCE - k.phase, Float, sc.toFloat, s.psPhase, k.phase);
    case FieldOffset => DataEffectKeepsNuls(b, cdata, NUM_DIMS, Float, sc.toFloat, s.fieldOffset, 0);
    case FieldDimensions => DataEffectKeepsNuls(b, cdata, NUM_DIMS, Float, sc.toFloat, s.fieldDims, 0);
    case FieldSize => DataEffectKeepsNuls(b, cdata, NUM_DIMS, UnsignedInt, sc.toUnsigned, s.fieldSize, 0);
    case FieldMax => DataEffectKeepsNuls(b, cdata, 1, Float, sc.toFloat, s.fieldMax, 0);
    case FieldMin => DataEffectKeepsNuls(b, cdata, 1, Float, sc.toFloat, s.fieldMin, 0);
  }

  /** A block only ever writes NULs into the buffer. */
  lemma BlockEffectKeepsNuls(w: World, block: nat, sc: Scanners)
    requires Ready(w.buf, block) && block < |w.buf| && w.scene.Shaped()
    ensures var o := BlockEffect(w, block, sc);
      NulsKept(w.buf, o.world.buf) && Terminated(o.world.buf)
  {
    var c := NextToken(w.buf, block);
    if c.token.Some? {
      NameInside(w.buf, block);
      NamedBlockKeepsNuls(w, c.token.value, block, sc);
    }
  }

  /** A block whose name is not recognised only loses the byte ending its name. */
  lemma UnknownBlockEffect(w: World, t: Span, block: nat, sc: Scanners)
    requires Terminated(w.buf) && t.end + 1 < |w.buf| && w.scene.Shaped()
    requires Classify(Text(w.buf, t)).None?
    ensures NamedBlockEffect(w, t, block, sc) == Outcome(w.(buf := Cut(w.buf, Some(t))), None, [])
  {
  }

  /** A block whose name is recognised has that name's effect on the cut buffer, plus DataPastNul when the name ran into a NUL. */
  lemma RecognisedBlockEffect(w: World, t: Span, block: nat, sc: Scanners, name: Name)
    requires Terminated(w.buf) && t.end + 1 < |w.buf| && w.scene.Shaped()
    requires Classify(Text(w.buf, t)) == Some(name)
    ensures Terminated(Cut(w.buf, Some(t)))
    ensures var o := NamedEffect(name, Cut(w.buf, Some(t)), t.end + 1, w.scene, w.counters, sc, block);
      NamedBlockEffect(w, t, block, sc) ==
      o.(hazards := (if w.buf[t.end] == '\0' then [DataPastNul(block)] else []) + o.hazards)
  {
    CutKeepsNuls(w.buf, Some(t));
  }

  /** A recognised block leaves the world as its name's branch does on the data after the name, and returns its count. */
  lemma RecognisedBlock(w: World, block: nat, sc: Scanners, name: Name)
    requires Ready(w.buf, block) && block < |w.buf| && w.scene.Shaped()
    requires BlockName(w.buf, block) == Some(name)
    ensures var c := NextToken(w.buf, block);
      c.token.Some? && c.token.value.end + 1 < |w.buf| && Terminated(Cut(w.buf, c.token)) &&
      var o := NamedEffect(name, Cut(w.buf, c.token), c.token.value.end + 1, w.scene, w.counters, sc, block);
      BlockEffect(w, block, sc).world == o.world && BlockEffect(w, block, sc).numtokens == o.numtokens
  {
    NameInside(w.buf, block);
    RecognisedBlockEffect(w, NextToken(w.buf, block).token.value, block, sc, name);
  }

  lemma NamedBlockKeepsNuls(w: World, t: Span, block: nat, sc: Scanners)
    requires Terminated(w.buf) && t.end + 1 < |w.buf| && w.scene.Shaped()
    ensures var o := NamedBlockEffect(w, t, block, sc);
      NulsKept(w.buf, o.world.buf) && Terminated(o.world.buf)
  {
    var b := Cut(w.buf, Some(t));
    CutKeepsNuls(w.buf, Some(t));
    match Classify(Text(w.buf, t))
    case None =>
      UnknownBlockEffect(w, t, block, sc);
    case Some(name) =>
      var o := NamedEffect(name, b, t.end + 1, w.scene, w.counters, sc, block);
      NamedEffectKeepsNuls(name, b, t.end + 1, w.scene, w.counters, sc, block);
      NulsKeptTransitive(w.buf, b, o.world.buf);
      RecognisedBlockEffect(w, t, block, sc, name);
  }

  lemma ReadyKept(b1: seq<char>, b2: seq<char>, block: nat)
    requires Ready(b1, block) && NulsKept(b1, b2)
    ensures Ready(b2, block)
  {
    var x :| block <= x < |b1| - 1 && b1[x] == '\0';
    assert b2[x] == '\0';
  }

  // ----- Properties of one block -----

  /** The recognised name of the block starting at `block`, if it has one. */
  function BlockName(b: seq<char>, block: nat): Option<Name>
    requires Terminated(b) && block < |b|
  {
    var c := NextToken(b, block);
    if c.token.None? then None else Classify(Text(b, c.token.value))
  }

  /**
   * parseData converts min(n, #tokens) tokens (none for n <= 0 or an unknown type),
   * writes only target[base..base + count), and a token that does not convert
   * leaves its slot as it was while the next token still goes to the next slot.
   */
  lemma DataEffectWindow<T>(b: seq<char>, cdata: nat, n: int, kind: DataType, scan: seq<char> -> Option<T>,
                            a: seq<T>, base: nat)
    requires Terminated(b) && cdata < |b|
    ensures var r := DataEffect(b, cdata, n, kind, scan, a, base);
      var ts := Tokens(b, cdata);
      var count := r.2;
      (kind == Other || n <= 0 ==> count == 0) &&
      (kind != Other && n > 0 ==> count == Min(n, |ts|)) &&
      (forall x :: 0 <= x < |a| && !(base <= x < base + count) ==> r.1[x] == a[x]) &&
      (forall k :: 0 <= k < count && base + k < |a| ==>
        r.1[base + k] == if scan(Text(b, ts[k])).Some? then scan(Text(b, ts[k])).value else a[base + k])
  {
    var ts := Tokens(b, cdata);
    var count := DataCount(kind, n, |ts|);
    var vals := Scanned(scan, b, ts[..count]);
    StoreWindow(a, base, vals);
    assert DataEffect(b, cdata, n, kind, scan, a, base).1 == Store(a, base, vals);
    assert forall k :: 0 <= k < count ==> vals[k] == scan(Text(b, ts[k]));
  }

  /** A block with no name changes nothing; C would pass NULL to strlen here. */
  lemma NamelessBlock(w: World, block: nat, sc: Scanners)
    requires Ready(w.buf, block) && block < |w.buf| && w.scene.Shaped()
    requires NextToken(w.buf, block).token.None?
    ensures BlockEffect(w, block, sc) == Outcome(w, None, [MissingName(block)])
  {
  }

  /** An unknown name writes nothing and moves no counter; parseBlock's count is then uninitialised. */
  lemma UnknownBlock(w: World, block: nat, sc: Scanners)
    requires Ready(w.buf, block) && block < |w.buf| && w.scene.Shaped()
    requires NextToken(w.buf, block).token.Some? && BlockName(w.buf, block).None?
    ensures var o := BlockEffect(w, block, sc);
      o.world.scene == w.scene && o.world.counters == w.counters && o.numtokens.None?
  {
  }

  /**
   * A combined PointSource record goes to index i = max(loc, freq, phase): two
   * coordinates at ps_loc[2i..2i + 2), then ps_freq[i], then ps_phase[i]; extra
   * tokens are ignored, and all three counters become i + 1, or i if nothing was read.
   */
  lemma CombinedRecordBlock(w: World, block: nat, sc: Scanners)
    requires Ready(w.buf, block) && block < |w.buf| && w.scene.Shaped()
    requires BlockName(w.buf, block) == Some(PointSource)
    ensures var o := BlockEffect(w, block, sc);
      var k := w.counters;
      var i := Max3(k.loc, k.freq, k.phase);
      var s := w.scene;
      var s' := o.world.scene;
      o.numtokens.Some? && o.numtokens.value <= RECORD_TOKENS &&
      i >= k.loc && i >= k.freq && i >= k.phase &&
      o.world.counters == (if o.numtokens.value > 0 then Counters(i + 1, i + 1, i + 1) else Counters(i, i, i)) &&
      s' == s.(psLoc := s'.psLoc, psFreq := s'.psFreq, psPhase := s'.psPhase) &&
      (forall x :: 0 <= x < |s.psLoc| && !(NUM_DIMS * i <= x < NUM_DIMS * i + NUM_DIMS) ==> s'.psLoc[x] == s.psLoc[x]) &&
      (forall x :: 0 <= x < |s.psFreq| && x != i ==> s'.psFreq[x] == s.psFreq[x]) &&
      (forall x :: 0 <= x < |s.psPhase| && x != i ==> s'.psPhase[x] == s.psPhase[x])
  {
    var b0 := w.buf;
    var c := NextToken(b0, block);
    var t := c.token.value;
    RecognisedBlock(w, block, sc, PointSource);
    var k := w.counters;
    RecordEffectWindow(Cut(b0, c.token), t.end + 1, Max3(k.loc, k.freq, k.phase), sc.toFloat,
                       w.scene.psLoc, w.scene.psFreq, w.scene.psPhase);
  }

  /** parsePointSource reads at most RECORD_TOKENS tokens and writes only the slots of source `index`. */
  lemma RecordEffectWindow(b: seq<char>, cdata: nat, index: nat, scan: seq<char> -> Option<real>,
                           loc: seq<real>, freq: seq<real>, phase: seq<real>)
    requires Terminated(b) && cdata < |b|
    ensures var r := RecordEffect(b, cdata, index, scan, loc, freq, phase);
      r.4 <= RECORD_TOKENS &&
      (forall x :: 0 <= x < |loc| && !(NUM_DIMS * index <= x < NUM_DIMS * index + NUM_DIMS) ==> r.1[x] == loc[x]) &&
      (forall x :: 0 <= x < |freq| && x != index ==> r.2[x] == freq[x]) &&
      (forall x :: 0 <= x < |phase| && x != index ==> r.3[x] == phase[x])
  {
    var ts := Tokens(b, cdata);
    var n := Min(|ts|, RECORD_TOKENS);
    RecordParts(ts, n);
    StoreWindow(loc, NUM_DIMS * index, Scanned(scan, b, Coordinates(ts, n)));
    StoreWindow(freq, index, Scanned(scan, b, FrequencyPart(ts, n)));
    StoreWindow(phase, index, Scanned(scan, b, PhasePart(ts, n)));
  }

  /**
   * A PointSource-Location block writes at most 2 * (32 - loc) coordinates from
   * ps_loc[2 * loc] on and advances loc by 1 + (count - 1) / 2 in C arithmetic:
   * one source per two coordinates rounded up, but one for an empty block, so
   * loc passes MAX_POINT_SOURCE when an empty block arrives at capacity.
   */
  lemma LocationBlock(w: World, block: nat, sc: Scanners)
    requires Ready(w.buf, block) && block < |w.buf| && w.scene.Shaped()
    requires BlockName(w.buf, block) == Some(PointSourceLocation)
    ensures var o := BlockEffect(w, block, sc);
      var k := w.counters;
      var s := w.scene;
      var s' := o.world.scene;
      o.numtokens.Some? &&
      var count := o.numtokens.value;
      (k.loc <= MAX_POINT_SOURCE ==> count <= NUM_DIMS * (MAX_POINT_SOURCE - k.loc)) &&
      (k.loc >= MAX_POINT_SOURCE ==> count == 0) &&
      o.world.counters == k.(loc := k.loc + LocationAdvance(count)) &&
      (count == 0 ==> o.world.counters.loc == k.loc + 1) &&
      (k.loc <= MAX_POINT_SOURCE && count > 0 ==> o.world.counters.loc <= MAX_POINT_SOURCE) &&
      s' == s.(psLoc := s'.psLoc) &&
      (forall x :: 0 <= x < |s.psLoc| && !(NUM_DIMS * k.loc <= x < NUM_DIMS * k.loc + count) ==> s'.psLoc[x] == s.psLoc[x])
  {
    var b0 := w.buf;
    var c := NextToken(b0, block);
    var t := c.token.value;
    var b := Cut(b0, c.token);
    RecognisedBlock(w, block, sc, PointSourceLocation);
    var k := w.counters;
    DataEffectWindow(b, t.end + 1, NUM_DIMS * (MAX_POINT_SOURCE - k.loc), Float, sc.toFloat, w.scene.psLoc, NUM_DIMS * k.loc);
    var count := BlockEffect(w, block, sc).numtokens.value;
    LocationAdvanceValue(count);
  }

  /**
   * A PointSource-Frequency block writes at most 32 - freq values from ps_freq[freq]
   * on and advances freq, and nothing else, by exactly the count it read; so a
   * counter at or below capacity stays there.
   */
  lemma FrequencyBlock(w: World, block: nat, sc: Scanners)
    requires Ready(w.buf, block) && block < |w.buf| && w.scene.Shaped()
    requires BlockName(w.buf, block) == Some(PointSourceFrequency)
    ensures var o := BlockEffect(w, block, sc);
      var k := w.counters;
      var s := w.scene;
      var s' := o.world.scene;
      o.numtokens.Some? &&
      var count := o.numtokens.value;
      (k.freq <= MAX_POINT_SOURCE ==> count <= MAX_POINT_SOURCE - k.freq) &&
      (k.freq >= MAX_POINT_SOURCE ==> count == 0) &&
      o.world.counters == k.(freq := k.freq + count) &&
      (k.freq <= MAX_POINT_SOURCE ==> o.world.counters.freq <= MAX_POINT_SOURCE) &&
      s' == s.(psFreq := s'.psFreq) &&
      (forall x :: 0 <= x < |s.psFreq| && !(k.freq <= x < k.freq + count) ==> s'.psFreq[x] == s.psFreq[x])
  {
    var b0 := w.buf;
    var c := NextToken(b0, block);
    var t := c.token.value;
    var b := Cut(b0, c.token);
    RecognisedBlock(w, block, sc, PointSourceFrequency);
    var k := w.counters;
    DataEffectWindow(b, t.end + 1, MAX_POINT_SOURCE - k.freq, Float, sc.toFloat, w.scene.psFreq, k.freq);
  }

  /** The same for a PointSource-Phase block, ps_phase and phase. */
  lemma PhaseBlock(w: World, block: nat, sc: Scanners)
    requires Ready(w.buf, block) && block < |w.buf| && w.scene.Shaped()
    requires BlockName(w.buf, block) == Some(PointSourcePhase)
    ensures var o := BlockEffect(w, block, sc);
      var k := w.counters;
      var s := w.scene;
      var s' := o.world.scene;
      o.numtokens.Some? &&
      var count := o.numtokens.value;
      (k.phase <= MAX_POINT_SOURCE ==> count <= MAX_POINT_SOURCE - k.phase) &&
      (k.phase >= MAX_POINT_SOURCE ==> count == 0) &&
      o.world.counters == k.(phase := k.phase + count) &&
      (k.phase <= MAX_POINT_SOURCE ==> o.world.counters.phase <= MAX_POINT_SOURCE) &&
      s' == s.(psPhase := s'.psPhase) &&
      (forall x :: 0 <= x < |s.psPhase| && !(k.phase <= x < k.phase + count) ==> s'.psPhase[x] == s.psPhase[x])
  {
    var b0 := w.buf;
    var c := NextToken(b0, block);
    var t := c.token.value;
    var b := Cut(b0, c.token);
    RecognisedBlock(w, block, sc, PointSourcePhase);
    var k := w.counters;
    DataEffectWindow(b, t.end + 1, MAX_POINT_SOURCE - k.phase, Float, sc.toFloat, w.scene.psPhase, k.phase);
  }

  /**
   * The fixed-destination blocks move no counter and write only their own field:
   * Material-C and PointSource-Number one value, Field-Offset, Field-Dimensions and
   * Field-Size at most NUM_DIMS, Field-Max and Field-Min one value after setting
   * written to 2 whether or not the value converts.
   */
  lemma FixedBlock(w: World, block: nat, sc: Scanners)
    requires Ready(w.buf, block) && block < |w.buf| && w.scene.Shaped()
    requires BlockName(w.buf, block).Some?
    requires BlockName(w.buf, block).value !in {PointSource, PointSourceLocation, PointSourceFrequency, PointSourcePhase}
    ensures var o := BlockEffect(w, block, sc);
      var s := w.scene;
      var s' := o.world.scene;
      var name := BlockName(w.buf, block).value;
      o.world.counters == w.counters && o.numtokens.Some? &&
      (name in {MaterialC, PointSourceNumber, FieldMax, FieldMin} ==> o.numtokens.value <= 1) &&
      (name in {FieldOffset, FieldDimensions, FieldSize} ==> o.numtokens.value <= NUM_DIMS) &&
      (name == MaterialC ==> s' == s.(matC := s'.matC)) &&
      (name == PointSourceNumber ==> s' == s.(psn := s'.psn)) &&
      (name == FieldOffset ==> s' == s.(fieldOffset := s'.fieldOffset)) &&
      (name == FieldDimensions ==> s' == s.(fieldDims := s'.fieldDims)) &&
      (name == FieldSize ==> s' == s.(fieldSize := s'.fieldSize)) &&
      (name == FieldMax ==> s' == s.(written := [2], fieldMax := s'.fieldMax)) &&
      (name == FieldMin ==> s' == s.(written := [2], fieldMin := s'.fieldMin))
  {
    var b0 := w.buf;
    var c := NextToken(b0, block);
    var t := c.token.value;
    var b := Cut(b0, c.token);
    NameInside(b0, block);
    assert w.scene.written[0 := 2] == [2];
  }

  // ----- The counters across blocks -----

  /** Every counter in k1 is at least its value in k0. */
  ghost predicate NotBelow(k0: Counters, k1: Counters) {
    k0.loc <= k1.loc && k0.freq <= k1.freq && k0.phase <= k1.phase
  }

  /** No block moves a counter back: the combined record raises all three to their maximum, the streams only add. */
  lemma BlockCountersGrow(w: World, block: nat, sc: Scanners)
    requires Ready(w.buf, block) && block < |w.buf| && w.scene.Shaped()
    ensures NotBelow(w.counters, BlockEffect(w, block, sc).world.counters)
  {
    var c := NextToken(w.buf, block);
    if c.token.Some? {
      NameInside(w.buf, block);
      var t := c.token.value;
      CutKeepsNuls(w.buf, c.token);
      match Classify(Text(w.buf, t))
      case None =>
      case Some(name) => NamedCountersGrow(name, Cut(w.buf, c.token), t.end + 1, w.scene, w.counters, sc, block);
    }
  }

  lemma NamedCountersGrow(name: Name, b: seq<char>, cdata: nat, s: Scene, k: Counters, sc: Scanners, block: nat)
    requires Terminated(b) && cdata < |b| && s.Shaped()
    ensures NotBelow(k, NamedEffect(name, b, cdata, s, k, sc, block).world.counters)
  {
    if name == PointSource {
      Max3IsMaximum(k.loc, k.freq, k.phase);
    }
  }

  /**
   * The counters are never reset: across any run of blocks, and so across successive
   * parseFieldInfo calls on the same Parser, each counter only grows.
   */
  lemma {:induction false} RunBlocksCountersGrow(w: World, starts: seq<nat>, sc: Scanners)
    requires w.scene.Shaped() && Terminated(w.buf)
    requires forall k :: 0 <= k < |starts| ==> starts[k] < |w.buf| && Ready(w.buf, starts[k])
    ensures NotBelow(w.counters, RunBlocks(w, starts, sc).0.counters)
    decreases |starts|
  {
    if starts != [] {
      var init := starts[..|starts| - 1];
      RunBlocksCountersGrow(w, init, sc);
      var r := RunBlocks(w, init, sc);
      var last := starts[|starts| - 1];
      ReadyKept(w.buf, r.0.buf, last);
      BlockCountersGrow(r.0, last, sc);
    }
  }
}
