/**
 * The two token decoders of the FI parser: parseData, which converts up to n
 * tokens into consecutive elements of a target array, and parsePointSource,
 * which reads one combined point-source record (location, frequency, phase).
 *
 * The C library's sscanf is abstracted as a conversion function from a token's
 * text to an optional value: None where sscanf matches nothing and leaves the
 * destination as it was.  Text made only of C white space never converts: %f,
 * %d and %u skip it and then meet the end of the string.
 */
module Decoder {
  import opened Wrappers
  import opened Tokenizer
  import opened FieldInfo

  /** The element types parseData converts to (GL_FLOAT, GL_INT, GL_UNSIGNED_INT); any other makes it give up. */
  datatype DataType = Float | Int | UnsignedInt | Other

  /** The bytes C's isspace accepts in the "C" locale. */
  predicate IsCSpace(c: char) {
    c == ' ' || c == '\t' || c == '\n' || c == '\U{0B}' || c == '\U{0C}' || c == '\r'
  }

  /** Text sscanf finds nothing in but white space (the empty text included). */
  predicate AllSpace(s: seq<char>) {
    forall k :: 0 <= k < |s| ==> IsCSpace(s[k])
  }

  /** scan matches nothing in text that is white space throughout. */
  ghost predicate RejectsSpace<T>(scan: seq<char> -> Option<T>) {
    forall s {:trigger AllSpace(s)} :: AllSpace(s) ==> scan(s).None?
  }

  /** A sscanf conversion. */
  type Conversion<T> = scan: seq<char> -> Option<T> | RejectsSpace(scan)
    witness (s: seq<char>) => None

  /** What sscanf makes of each token of ts in buffer b. */
  function Scanned<T>(scan: seq<char> -> Option<T>, b: seq<char>, ts: seq<Span>): (vs: seq<Option<T>>)
    ensures |vs| == |ts|
  {
    seq(|ts|, k requires 0 <= k < |ts| => scan(Text(b, ts[k])))
  }

  /**
   * The array a after vals[k] has been stored at a[base + k] for every k whose
   * conversion succeeded.  Positions outside a are never written.
   */
  function Store<T>(a: seq<T>, base: int, vals: seq<Option<T>>): (r: seq<T>)
    ensures |r| == |a|
  {
    seq(|a|, k requires 0 <= k < |a| =>
      if base <= k < base + |vals| && vals[k - base].Some? then vals[k - base].value else a[k])
  }

  /** Number of tokens parseData converts when the block holds `available` of them. */
  function DataCount(kind: DataType, n: int, available: nat): (count: nat)
  {
    if kind == Other || n <= 0 then 0 else Min(n, available)
  }

  // ----- Properties of the specification functions -----

  /** parseData converts as many tokens as it may and as there are, never more than either. */
  lemma DataCountBounds(kind: DataType, n: int, available: nat)
    ensures var count := DataCount(kind, n, available);
      count <= available &&
      (kind == Other || n <= 0 ==> count == 0) &&
      (kind != Other && n > 0 ==> count <= n && (count == n || count == available))
  {
  }

  /** Storing nothing, or only failed conversions, leaves the target as it was. */
  lemma {:induction false} StoreNothing<T>(a: seq<T>, base: int, vals: seq<Option<T>>)
    requires forall k :: 0 <= k < |vals| ==> vals[k].None?
    ensures Store(a, base, vals) == a
  {
  }

  /** Only the window [base, base + |vals|) can change, and inside it exactly the converted values land. */
  lemma StoreWindow<T>(a: seq<T>, base: int, vals: seq<Option<T>>)
    ensures var r := Store(a, base, vals);
      (forall k :: 0 <= k < |a| && !(base <= k < base + |vals|) ==> r[k] == a[k]) &&
      (forall k :: 0 <= k < |vals| && 0 <= base + k < |a| ==>
        r[base + k] == if vals[k].Some? then vals[k].value else a[base + k])
  {
  }

  /** Storing one more value is one more array update (none if it failed or falls outside). */
  lemma StoreSnoc<T>(a: seq<T>, base: int, vals: seq<Option<T>>, v: Option<T>)
    ensures Store(a, base, vals + [v]) ==
      if v.Some? && 0 <= base + |vals| < |a| then Store(a, base, vals)[base + |vals| := v.value]
      else Store(a, base, vals)
  {
    var r := Store(a, base, vals + [v]);
    var r0 := Store(a, base, vals);
    forall k | 0 <= k < |a| && k != base + |vals| ensures r[k] == r0[k] {
      if base <= k < base + |vals| {
        assert (vals + [v])[k - base] == vals[k - base];
      }
    }
  }

  lemma ScannedSnoc<T>(scan: seq<char> -> Option<T>, b: seq<char>, ts: seq<Span>, m: nat)
    requires m < |ts|
    ensures Scanned(scan, b, ts[..m + 1]) == Scanned(scan, b, ts[..m]) + [scan(Text(b, ts[m]))]
  {
  }

  /** Storing values one after another is storing them all at once. */
  lemma StoreThen<T>(a: seq<T>, base: int, vals: seq<Option<T>>, v: Option<T>)
    ensures Store(Store(a, base, vals), base + |vals|, [v]) == Store(a, base, vals + [v])
  {
    StoreSnoc(a, base, vals, v);
    var r := Store(Store(a, base, vals), base + |vals|, [v]);
    var r0 := Store(a, base, vals);
    if v.Some? && 0 <= base + |vals| < |a| {
      assert r == r0[base + |vals| := v.value];
    } else {
      assert r == r0;
    }
  }

  // ----- parseData -----

  /**
   * sscanf of token t into target[at]: the destination is written only when the
   * token's text converts.  Returns what sscanf returns: EOF (-1) when the text
   * is white space throughout, otherwise the match count, 1 or 0.  A destination
   * past the end of target is left alone.
   */
  method Sscanf<T>(buf: array<char>, t: Span, scan: Conversion<T>, target: array<T>, at: nat)
    returns (matched: int)
    requires buf as object != target as object
    modifies target
    ensures target[..] == Store(old(target[..]), at, [scan(Text(buf[..], t))])
    ensures matched == if AllSpace(Text(buf[..], t)) then -1 else if scan(Text(buf[..], t)).Some? then 1 else 0
    ensures matched == -1 ==> target[..] == old(target[..])
  {
    var text := if t.start <= t.end <= buf.Length then buf[t.start..t.end] else [];
    assert text == Text(buf[..], t);
    var v := scan(text);
    ghost var a := target[..];
    if v.Some? && at < target.Length {
      target[at] := v.value;
    }
    matched := if AllSpace(text) then -1 else if v.Some? then 1 else 0;
    StoreSnoc(a, at, [], v);
  }

  /**
   * One pass of parseData's loop body: sscanf the count-th token into
   * target[base + count], then strtok(NULL, delim) for the next one.
   */
  method ConvertAndAdvance<T>(buf: array<char>, token: Option<Span>, cursor: nat, scan: Conversion<T>,
                              target: array<T>, base: nat, count: nat, ghost b0: seq<char>, ghost p: nat, ghost t0: seq<T>)
    returns (next: Option<Span>, resume: nat)
    requires Terminated(b0) && p < |b0|
    requires Scanning(b0, p, Progress(buf[..], token, cursor), count) && token.Some?
    requires base + count < target.Length
    requires buf as object != target as object
    requires target[..] == Store(t0, base, Scanned(scan, b0, Tokens(b0, p)[..count]))
    modifies buf, target
    ensures count < |Tokens(b0, p)|
    ensures Scanning(b0, p, Progress(buf[..], next, resume), count + 1)
    ensures target[..] == Store(t0, base, Scanned(scan, b0, Tokens(b0, p)[..count + 1]))
  {
    ghost var s := Progress(buf[..], token, cursor);
    ConvertStep(b0, p, s, count, scan, t0, base);
    var matched := Sscanf(buf, token.value, scan, target, base + count);
    ghost var stored := target[..];
    assert stored == Store(t0, base, Scanned(scan, b0, Tokens(b0, p)[..count + 1]));
    ScanningStep(b0, p, s, count);
    next, resume := Strtok(buf, cursor);
    assert target[..] == stored;
  }

  /** Converting the count-th token extends the stored values by its conversion. */
  lemma ConvertStep<T>(b0: seq<char>, p: nat, s: Progress, count: nat,
                       scan: seq<char> -> Option<T>, t0: seq<T>, base: nat)
    requires Terminated(b0) && p < |b0| && Scanning(b0, p, s, count) && s.token.Some?
    ensures var ts := Tokens(b0, p);
      count < |ts| &&
      Store(Store(t0, base, Scanned(scan, b0, ts[..count])), base + count, [scan(Text(s.buf, s.token.value))]) ==
      Store(t0, base, Scanned(scan, b0, ts[..count + 1]))
  {
    var ts := Tokens(b0, p);
    ScanningText(b0, p, s, count, count);
    ScannedSnoc(scan, b0, ts, count);
    StoreThen(t0, base, Scanned(scan, b0, ts[..count]), scan(Text(b0, ts[count])));
  }

  /** parseData from cdata into a at base: the buffer after it, the array after it, and the count it returns. */
  function DataEffect<T>(b: seq<char>, cdata: nat, n: int, kind: DataType, scan: seq<char> -> Option<T>,
                         a: seq<T>, base: nat): (r: (seq<char>, seq<T>, nat))
    requires Terminated(b) && cdata < |b|
    ensures |r.0| == |b| && |r.1| == |a|
  {
    var ts := Tokens(b, cdata);
    var count := DataCount(kind, n, |ts|);
    (CutEnds(b, ts[..Min(|ts|, count + 1)]), Store(a, base, Scanned(scan, b, ts[..count])), count)
  }

  /**
   * parseData: tokenises from cdata and converts up to n tokens into
   * target[base..], returning how many it read.  The buffer loses the ends of
   * every token returned, including the one read ahead after the last
   * conversion.
   */
  method ParseData<T>(buf: array<char>, cdata: nat, n: int, kind: DataType,
                      scan: Conversion<T>, target: array<T>, base: nat) returns (count: nat)
    requires Terminated(buf[..]) && cdata < buf.Length
    requires buf as object != target as object
    requires n <= 0 || base + n <= target.Length
    modifies buf, target
    ensures (buf[..], target[..], count) == DataEffect(old(buf[..]), cdata, n, kind, scan, old(target[..]), base)
  {
    ghost var b0 := buf[..];
    ghost var t0 := target[..];
    ScanningStart(b0, cdata);
    var token, cursor := Strtok(buf, cdata);
    count := 0;
    while token.Some? && count < n
      invariant Scanning(b0, cdata, Progress(buf[..], token, cursor), count)
      invariant kind == Other ==> count == 0
      invariant count == 0 || count <= n
      invariant target[..] == Store(t0, base, Scanned(scan, b0, Tokens(b0, cdata)[..count]))
    {
      if kind == Other {
        break;  // count is still 0: parseData returns 0 here
      }
      token, cursor := ConvertAndAdvance(buf, token, cursor, scan, target, base, count, b0, cdata, t0);
      count := count + 1;
    }
    DataExit(b0, cdata, Progress(buf[..], token, cursor), count, n, kind, scan, t0, base, target[..]);
  }

  /**
   * When parseData's loop stops, or gives up on an unknown type, it has converted
   * DataCount tokens and cut one more end.
   */
  lemma DataExit<T>(b0: seq<char>, cdata: nat, s: Progress, count: nat, n: int, kind: DataType,
                    scan: seq<char> -> Option<T>, t0: seq<T>, base: nat, t: seq<T>)
    requires Terminated(b0) && cdata < |b0| && Scanning(b0, cdata, s, count)
    requires !(s.token.Some? && count < n) || kind == Other
    requires kind == Other ==> count == 0
    requires count == 0 || count <= n
    requires t == Store(t0, base, Scanned(scan, b0, Tokens(b0, cdata)[..count]))
    ensures (s.buf, t, count) == DataEffect(b0, cdata, n, kind, scan, t0, base)
  {
  }

  // ----- parsePointSource -----

  /** Tokens of one combined point-source record: NUM_DIMS coordinates, a frequency and a phase. */
  const RECORD_TOKENS: nat := NUM_DIMS + 2

  /** Which of the first i record tokens are coordinates, the frequency and the phase. */
  function Coordinates(tokens: seq<Span>, i: nat): seq<Span>
    requires i <= |tokens|
  {
    tokens[..Min(i, NUM_DIMS)]
  }

  function FrequencyPart(tokens: seq<Span>, i: nat): seq<Span>
    requires i <= |tokens|
  {
    tokens[Min(i, NUM_DIMS)..Min(i, NUM_DIMS + 1)]
  }

  function PhasePart(tokens: seq<Span>, i: nat): seq<Span>
    requires i <= |tokens|
  {
    tokens[Min(i, NUM_DIMS + 1)..i]
  }

  /** The three parts split the record tokens read so far, in order. */
  lemma RecordParts(tokens: seq<Span>, i: nat)
    requires i <= |tokens| && i <= RECORD_TOKENS
    ensures Coordinates(tokens, i) + FrequencyPart(tokens, i) + PhasePart(tokens, i) == tokens[..i]
    ensures |FrequencyPart(tokens, i)| <= 1 && |PhasePart(tokens, i)| <= 1
  {
  }

  /** The point-source arrays once the first i record tokens have been stored for source `index`. */
  ghost predicate RecordStored(fim: FieldInfoMap, loc0: seq<real>, freq0: seq<real>, phase0: seq<real>, index: nat,
                               scan: seq<char> -> Option<real>, b0: seq<char>, tokens: seq<Span>, i: nat)
    reads fim.psLoc, fim.psFreq, fim.psPhase
  {
    i <= |tokens| &&
    fim.psLoc[..] == Store(loc0, NUM_DIMS * index, Scanned(scan, b0, Coordinates(tokens, i))) &&
    fim.psFreq[..] == Store(freq0, index, Scanned(scan, b0, FrequencyPart(tokens, i))) &&
    fim.psPhase[..] == Store(phase0, index, Scanned(scan, b0, PhasePart(tokens, i)))
  }

  /**
   * parsePointSource: reads up to RECORD_TOKENS tokens from cdata and stores the
   * first NUM_DIMS as the coordinates of point source `index`, the next as its
   * frequency and the next as its phase.  Returns how many tokens it read.
   * Destinations past the point-source capacity are left alone.
   */
  method ParsePointSource(buf: array<char>, cdata: nat, index: nat, scan: Conversion<real>, fim: FieldInfoMap)
    returns (numtokens: nat)
    requires Terminated(buf[..]) && cdata < buf.Length
    requires fim.Valid() && buf as object !in fim.Repr
    modifies buf, fim.psLoc, fim.psFreq, fim.psPhase
    ensures var b0 := old(buf[..]);
      var ts := Tokens(b0, cdata);
      numtokens == Min(|ts|, RECORD_TOKENS) &&
      fim.psLoc[..] == Store(old(fim.psLoc[..]), NUM_DIMS * index, Scanned(scan, b0, Coordinates(ts, numtokens))) &&
      fim.psFreq[..] == Store(old(fim.psFreq[..]), index, Scanned(scan, b0, FrequencyPart(ts, numtokens))) &&
      fim.psPhase[..] == Store(old(fim.psPhase[..]), index, Scanned(scan, b0, PhasePart(ts, numtokens))) &&
      buf[..] == CutEnds(b0, ts[..Min(|ts|, numtokens + 1)])
  {
    ghost var b0 := buf[..];
    ghost var loc0, freq0, phase0 := fim.psLoc[..], fim.psFreq[..], fim.psPhase[..];
    var tokens, token, cursor := CollectRecord(buf, cdata);
    numtokens := |tokens|;
    ghost var s := Progress(buf[..], token, cursor);
    RecordExit(b0, cdata, s, tokens);
    var i := 0;
    RecordNothing(fim, index, scan, b0, tokens);
    while i < numtokens
      invariant i <= numtokens && buf[..] == s.buf
      invariant RecordStored(fim, loc0, freq0, phase0, index, scan, b0, tokens, i)
    {
      ScanningText(b0, cdata, s, |tokens|, i);
      StoreRecordToken(buf, tokens, i, scan, index, fim, b0, loc0, freq0, phase0);
      i := i + 1;
    }
    RecordPrefix(b0, cdata, tokens);
  }

  /** The collecting loop: tokens[i] = strtok(...) while the last was not NULL and i < RECORD_TOKENS. */
  method CollectRecord(buf: array<char>, cdata: nat) returns (tokens: seq<Span>, token: Option<Span>, cursor: nat)
    requires Terminated(buf[..]) && cdata < buf.Length
    modifies buf
    ensures Scanning(old(buf[..]), cdata, Progress(buf[..], token, cursor), |tokens|)
    ensures |tokens| <= RECORD_TOKENS && tokens == Tokens(old(buf[..]), cdata)[..|tokens|]
    ensures !(token.Some? && |tokens| < RECORD_TOKENS)
  {
    ghost var b0 := buf[..];
    ghost var ts := Tokens(b0, cdata);
    ScanningStart(b0, cdata);
    token, cursor := Strtok(buf, cdata);
    tokens := [];
    while token.Some? && |tokens| < RECORD_TOKENS
      invariant Scanning(b0, cdata, Progress(buf[..], token, cursor), |tokens|)
      invariant |tokens| <= RECORD_TOKENS && tokens == ts[..|tokens|]
    {
      CollectStep(b0, cdata, Progress(buf[..], token, cursor), tokens);
      tokens := tokens + [token.value];
      token, cursor := Strtok(buf, cursor);
    }
  }

  lemma CollectStep(b0: seq<char>, cdata: nat, s: Progress, tokens: seq<Span>)
    requires Terminated(b0) && cdata < |b0| && Scanning(b0, cdata, s, |tokens|) && s.token.Some?
    requires tokens == Tokens(b0, cdata)[..|tokens|]
    ensures tokens + [s.token.value] == Tokens(b0, cdata)[..|tokens| + 1]
    ensures Scanning(b0, cdata, Next(s.buf, s.cursor), |tokens| + 1)
  {
    ghost var ts := Tokens(b0, cdata);
    assert s.token.value == ts[|tokens|];
    assert ts[..|tokens| + 1] == ts[..|tokens|] + [ts[|tokens|]];
    ScanningStep(b0, cdata, s, |tokens|);
  }

  /** One pass of the storing loop: record token i goes to a coordinate, the frequency or the phase. */
  method StoreRecordToken(buf: array<char>, tokens: seq<Span>, i: nat, scan: Conversion<real>, index: nat,
                          fim: FieldInfoMap, ghost b0: seq<char>, ghost loc0: seq<real>, ghost freq0: seq<real>,
                          ghost phase0: seq<real>)
    requires fim.Valid() && buf as object !in fim.Repr
    requires i < |tokens| && i < RECORD_TOKENS && Text(buf[..], tokens[i]) == Text(b0, tokens[i])
    requires RecordStored(fim, loc0, freq0, phase0, index, scan, b0, tokens, i)
    modifies fim.psLoc, fim.psFreq, fim.psPhase
    ensures RecordStored(fim, loc0, freq0, phase0, index, scan, b0, tokens, i + 1)
  {
    RecordStep(scan, b0, tokens, i);
    var v := scan(Text(b0, tokens[i]));
    var matched: int;
    if i < NUM_DIMS {
      StoreThen(loc0, NUM_DIMS * index, Scanned(scan, b0, Coordinates(tokens, i)), v);
      matched := Sscanf(buf, tokens[i], scan, fim.psLoc, NUM_DIMS * index + i);
    } else if i == NUM_DIMS {
      StoreThen(freq0, index, [], v);
      matched := Sscanf(buf, tokens[i], scan, fim.psFreq, index);
    } else {
      StoreThen(phase0, index, [], v);
      matched := Sscanf(buf, tokens[i], scan, fim.psPhase, index);
    }
  }

  lemma RecordNothing(fim: FieldInfoMap, index: nat, scan: seq<char> -> Option<real>, b0: seq<char>, tokens: seq<Span>)
    ensures RecordStored(fim, fim.psLoc[..], fim.psFreq[..], fim.psPhase[..], index, scan, b0, tokens, 0)
  {
    StoreNothing(fim.psLoc[..], NUM_DIMS * index, []);
    StoreNothing(fim.psFreq[..], index, []);
    StoreNothing(fim.psPhase[..], index, []);
  }

  /** The collected tokens are a prefix of the block's tokens, so the parts agree on both. */
  lemma RecordPrefix(b0: seq<char>, cdata: nat, tokens: seq<Span>)
    requires Terminated(b0) && cdata < |b0|
    requires |tokens| <= RECORD_TOKENS && |tokens| <= |Tokens(b0, cdata)| && tokens == Tokens(b0, cdata)[..|tokens|]
    ensures var ts := Tokens(b0, cdata);
      Coordinates(ts, |tokens|) == Coordinates(tokens, |tokens|) &&
      FrequencyPart(ts, |tokens|) == FrequencyPart(tokens, |tokens|) &&
      PhasePart(ts, |tokens|) == PhasePart(tokens, |tokens|)
  {
  }

  /** When the collecting loop stops, it holds the first min(|ts|, RECORD_TOKENS) tokens. */
  lemma RecordExit(b0: seq<char>, cdata: nat, s: Progress, tokens: seq<Span>)
    requires Terminated(b0) && cdata < |b0| && Scanning(b0, cdata, s, |tokens|)
    requires |tokens| <= RECORD_TOKENS && tokens == Tokens(b0, cdata)[..|tokens|]
    requires !(s.token.Some? && |tokens| < RECORD_TOKENS)
    ensures var ts := Tokens(b0, cdata);
      |tokens| == Min(|ts|, RECORD_TOKENS) && s.buf == CutEnds(b0, ts[..Min(|ts|, |tokens| + 1)])
  {
  }

  /** Reading record token i adds its conversion to exactly one of the three parts. */
  lemma RecordStep(scan: seq<char> -> Option<real>, b0: seq<char>, tokens: seq<Span>, i: nat)
    requires i < |tokens| && i < RECORD_TOKENS
    ensures var v := scan(Text(b0, tokens[i]));
      (i < NUM_DIMS ==>
        Scanned(scan, b0, Coordinates(tokens, i + 1)) == Scanned(scan, b0, Coordinates(tokens, i)) + [v] &&
        |Scanned(scan, b0, Coordinates(tokens, i))| == i &&
        FrequencyPart(tokens, i + 1) == FrequencyPart(tokens, i) && PhasePart(tokens, i + 1) == PhasePart(tokens, i)) &&
      (i == NUM_DIMS ==>
        Scanned(scan, b0, FrequencyPart(tokens, i + 1)) == [v] && FrequencyPart(tokens, i) == [] &&
        Coordinates(tokens, i + 1) == Coordinates(tokens, i) && PhasePart(tokens, i + 1) == PhasePart(tokens, i)) &&
      (i == NUM_DIMS + 1 ==>
        Scanned(scan, b0, PhasePart(tokens, i + 1)) == [v] && PhasePart(tokens, i) == [] &&
        Coordinates(tokens, i + 1) == Coordinates(tokens, i) && FrequencyPart(tokens, i + 1) == FrequencyPart(tokens, i))
  {
    if i < NUM_DIMS {
      assert Coordinates(tokens, i + 1) == Coordinates(tokens, i) + [tokens[i]];
    }
  }
}
