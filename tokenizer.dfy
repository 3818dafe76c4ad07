/**
 * The C library's strtok as the parser uses it, with its hidden "saved pointer"
 * made an explicit cursor into the character buffer.  A call skips delimiters,
 * returns the span of the next token, overwrites the delimiter that ends the
 * token with NUL, and resumes after it; a NUL ends the scan.
 */
module Tokenizer {
  import opened Wrappers

  /** The delimiter set passed to every strtok call: space, comma, parentheses, newline. */
  predicate IsDelim(c: char) {
    c == ' ' || c == ',' || c == '(' || c == ')' || c == '\n'
  }

  /** Every scan stops inside a buffer whose last byte is NUL. */
  predicate Terminated(b: seq<char>) {
    |b| > 0 && b[|b| - 1] == '\0'
  }

  /** A token occupies b[start..end]; b[end] is the delimiter or NUL that ends it. */
  datatype Span = Span(start: nat, end: nat)

  /** Result of one strtok call: the token (NULL as None) and the cursor the next call resumes from. */
  datatype Call = Call(token: Option<Span>, resume: nat)

  /** strspn: the first position at or after p that is not a delimiter. */
  function SkipDelims(b: seq<char>, p: nat): (q: nat)
    requires Terminated(b) && p < |b|
    ensures p <= q < |b| && !IsDelim(b[q])
    ensures forall k :: p <= k < q ==> IsDelim(b[k])
    decreases |b| - p
  {
    if IsDelim(b[p]) then SkipDelims(b, p + 1) else p
  }

  /** strcspn: the first position at or after q holding a delimiter or NUL. */
  function TokenEnd(b: seq<char>, q: nat): (e: nat)
    requires Terminated(b) && q < |b|
    ensures q <= e < |b| && (IsDelim(b[e]) || b[e] == '\0')
    ensures forall k :: q <= k < e ==> !IsDelim(b[k]) && b[k] != '\0'
    decreases |b| - q
  {
    if IsDelim(b[q]) || b[q] == '\0' then q else TokenEnd(b, q + 1)
  }

  /** What strtok returns from cursor p, and where it leaves its saved pointer. */
  function NextToken(b: seq<char>, p: nat): (r: Call)
    requires Terminated(b) && p < |b|
    ensures p <= r.resume < |b|
    ensures r.token.None? ==> b[r.resume] == '\0'
    ensures r.token.Some? ==>
      var t := r.token.value;
      p <= t.start < t.end < |b| &&
      (IsDelim(b[t.end]) || b[t.end] == '\0') &&
      r.resume == (if b[t.end] == '\0' then t.end else t.end + 1)
  {
    var q := SkipDelims(b, p);
    if b[q] == '\0' then Call(None, q)
    else
      var e := TokenEnd(b, q);
      Call(Some(Span(q, e)), if b[e] == '\0' then e else e + 1)
  }

  /** The token strtok returns holds neither delimiter nor NUL, and only delimiters precede it. */
  lemma NextTokenScan(b: seq<char>, p: nat)
    requires Terminated(b) && p < |b|
    ensures var r := NextToken(b, p);
      (r.token.None? ==> forall k :: p <= k < r.resume ==> IsDelim(b[k])) &&
      (r.token.Some? ==>
        (forall k :: p <= k < r.token.value.start ==> IsDelim(b[k])) &&
        (forall k :: r.token.value.start <= k < r.token.value.end ==> !IsDelim(b[k]) && b[k] != '\0'))
  {
  }

  /** t is a token of b found at or after cursor p: non-empty, free of delimiters and NUL, and ended by one. */
  ghost predicate IsTokenFrom(b: seq<char>, p: nat, t: Span) {
    p <= t.start < t.end < |b| &&
    (IsDelim(b[t.end]) || b[t.end] == '\0') &&
    forall k :: t.start <= k < t.end ==> !IsDelim(b[k]) && b[k] != '\0'
  }

  /**
   * Every token successive strtok calls yield from cursor p, read on the buffer as it is now.
   * Each is a genuine token; they come in increasing order, each but the last ended by a delimiter.
   */
  function Tokens(b: seq<char>, p: nat): (ts: seq<Span>)
    requires Terminated(b) && p < |b|
    decreases |b| - p
  {
    var c := NextToken(b, p);
    if c.token.None? then []
    else
      var t := c.token.value;
      var rest := Tokens(b, c.resume);
      [t] + rest
  }

  /**
   * Every token of Tokens(b, p) is a genuine token found at or after p; they come in
   * increasing order, and each but the last is ended by a delimiter.
   */
  lemma {:induction false} TokensShape(b: seq<char>, p: nat)
    requires Terminated(b) && p < |b|
    ensures forall i :: 0 <= i < |Tokens(b, p)| ==> IsTokenFrom(b, p, Tokens(b, p)[i])
    ensures forall i :: 0 <= i < |Tokens(b, p)| - 1 ==> Tokens(b, p)[i].end < |b| && IsDelim(b[Tokens(b, p)[i].end])
    ensures forall i, j :: 0 <= i < j < |Tokens(b, p)| ==> Tokens(b, p)[i].end < Tokens(b, p)[j].start
    decreases |b| - p
  {
    var c := NextToken(b, p);
    if c.token.Some? {
      var t := c.token.value;
      var rest := Tokens(b, c.resume);
      var ts := [t] + rest;
      TokensShape(b, c.resume);
      NextTokenScan(b, p);
      if b[t.end] == '\0' {
        assert SkipDelims(b, c.resume) == c.resume;
        assert rest == [];
      }
      assert IsTokenFrom(b, p, t);
      TokensCons(b, p, t, c.resume, rest);
    }
  }

  /**
   * Conversely, strtok misses nothing: every byte from p on that is neither a delimiter
   * nor NUL, and that no NUL precedes, lies inside one of the tokens from p.
   */
  lemma {:induction false} TokensCover(b: seq<char>, p: nat, x: nat)
    requires Terminated(b) && p <= x < |b| && !IsDelim(b[x]) && b[x] != '\0'
    requires forall k :: p <= k < x ==> b[k] != '\0'
    ensures exists i :: 0 <= i < |Tokens(b, p)| && Tokens(b, p)[i].start <= x < Tokens(b, p)[i].end
    decreases |b| - p
  {
    var c := NextToken(b, p);
    var q := SkipDelims(b, p);
    assert q <= x;
    var t := c.token.value;
    var ts := Tokens(b, p);
    if x < t.end {
      assert ts[0] == t;
    } else {
      assert b[t.end] != '\0';
      TokensCover(b, c.resume, x);
      var i :| 0 <= i < |Tokens(b, c.resume)| && Tokens(b, c.resume)[i].start <= x < Tokens(b, c.resume)[i].end;
      assert ts[i + 1] == Tokens(b, c.resume)[i];
    }
  }

  /** A token followed by the tokens from where the call resumes keeps the shape TokensShape states. */
  lemma TokensCons(b: seq<char>, p: nat, t: Span, resume: nat, rest: seq<Span>)
    requires IsTokenFrom(b, p, t)
    requires resume == if b[t.end] == '\0' then t.end else t.end + 1
    requires b[t.end] == '\0' ==> rest == []
    requires forall i :: 0 <= i < |rest| ==> IsTokenFrom(b, resume, rest[i])
    requires forall i :: 0 <= i < |rest| - 1 ==> rest[i].end < |b| && IsDelim(b[rest[i].end])
    requires forall i, j :: 0 <= i < j < |rest| ==> rest[i].end < rest[j].start
    ensures var ts := [t] + rest;
      (forall i :: 0 <= i < |ts| ==> IsTokenFrom(b, p, ts[i])) &&
      (forall i :: 0 <= i < |ts| - 1 ==> ts[i].end < |b| && IsDelim(b[ts[i].end])) &&
      (forall i, j :: 0 <= i < j < |ts| ==> ts[i].end < ts[j].start)
  {
    var ts := [t] + rest;
    forall i | 0 <= i < |ts| ensures IsTokenFrom(b, p, ts[i]) {
      if i > 0 {
        assert ts[i] == rest[i - 1] && IsTokenFrom(b, resume, rest[i - 1]);
      }
    }
    forall i | 0 <= i < |ts| - 1 ensures ts[i].end < |b| && IsDelim(b[ts[i].end]) {
      if i > 0 {
        assert ts[i] == rest[i - 1];
      }
    }
    forall i, j | 0 <= i < j < |ts| ensures ts[i].end < ts[j].start {
      assert ts[j] == rest[j - 1] && IsTokenFrom(b, resume, rest[j - 1]);
      if i > 0 {
        assert ts[i] == rest[i - 1];
      }
    }
  }

  /** The characters of a token. */
  function Text(b: seq<char>, t: Span): seq<char> {
    if t.start <= t.end <= |b| then b[t.start..t.end] else []
  }

  /** The buffer once strtok has returned the tokens ts: the character ending each is NUL. */
  function CutEnds(b: seq<char>, ts: seq<Span>): (r: seq<char>)
    ensures |r| == |b|
    decreases |ts|
  {
    if ts == [] then b
    else
      var r0 := CutEnds(b, ts[..|ts| - 1]);
      var e := ts[|ts| - 1].end;
      if e < |r0| then r0[e := '\0'] else r0
  }

  /** CutEnds writes NUL at the end of every token in ts, and changes nothing else. */
  lemma {:induction false} CutEndsChanges(b: seq<char>, ts: seq<Span>)
    ensures var r := CutEnds(b, ts);
      (forall k :: 0 <= k < |b| ==> r[k] == b[k] || r[k] == '\0') &&
      (forall i :: 0 <= i < |ts| && ts[i].end < |b| ==> r[ts[i].end] == '\0') &&
      (forall x :: 0 <= x < |b| && r[x] != b[x] ==> exists i :: 0 <= i < |ts| && ts[i].end == x)
    decreases |ts|
  {
    if ts != [] {
      var ts0 := ts[..|ts| - 1];
      CutEndsChanges(b, ts0);
      var r0 := CutEnds(b, ts0);
      var r := CutEnds(b, ts);
      var e := ts[|ts| - 1].end;
      forall i | 0 <= i < |ts| && ts[i].end < |b| ensures r[ts[i].end] == '\0' {
        if i < |ts| - 1 {
          assert ts0[i] == ts[i];
        }
      }
      forall x | 0 <= x < |b| && r[x] != b[x] ensures exists i :: 0 <= i < |ts| && ts[i].end == x {
        if x == e {
          assert ts[|ts| - 1].end == x;
        } else {
          var i :| 0 <= i < |ts0| && ts0[i].end == x;
          assert ts[i].end == x;
        }
      }
    }
  }

  /** The buffer after a call that returned token: the character ending it is overwritten with NUL. */
  function Cut(b: seq<char>, token: Option<Span>): (r: seq<char>)
    ensures |r| == |b|
  {
    if token.Some? && token.value.end < |b| then b[token.value.end := '\0'] else b
  }

  /** What a caller holds between strtok calls: the buffer, the last token returned and the saved cursor. */
  datatype Progress = Progress(buf: seq<char>, token: Option<Span>, cursor: nat)

  /** One strtok call resuming from cursor p on buffer b. */
  function Next(b: seq<char>, p: nat): (s: Progress)
    requires Terminated(b) && p < |b|
    ensures |s.buf| == |b| && Terminated(s.buf) && s.cursor < |b|
  {
    var c := NextToken(b, p);
    Progress(Cut(b, c.token), c.token, c.resume)
  }

  /**
   * One strtok call.  strtok(s, delim) starts at s; strtok(NULL, delim) resumes
   * from the pointer the previous call saved, which here is the explicit cursor p.
   */
  method Strtok(buf: array<char>, p: nat) returns (token: Option<Span>, resume: nat)
    requires Terminated(buf[..]) && p < buf.Length
    modifies buf
    ensures Progress(buf[..], token, resume) == Next(old(buf[..]), p)
  {
    var c := NextToken(buf[..], p);
    token, resume := c.token, c.resume;
    if token.Some? {
      buf[token.value.end] := '\0';
    }
  }

  // ----- Properties -----

  lemma {:induction false} SkipDelimsLocal(b: seq<char>, b': seq<char>, p: nat)
    requires Terminated(b) && Terminated(b') && |b| == |b'| && p < |b|
    requires forall k :: p <= k < |b| ==> b[k] == b'[k]
    ensures SkipDelims(b, p) == SkipDelims(b', p)
    decreases |b| - p
  {
    if IsDelim(b[p]) {
      SkipDelimsLocal(b, b', p + 1);
    }
  }

  lemma {:induction false} TokenEndLocal(b: seq<char>, b': seq<char>, q: nat)
    requires Terminated(b) && Terminated(b') && |b| == |b'| && q < |b|
    requires forall k :: q <= k < |b| ==> b[k] == b'[k]
    ensures TokenEnd(b, q) == TokenEnd(b', q)
    decreases |b| - q
  {
    if !(IsDelim(b[q]) || b[q] == '\0') {
      TokenEndLocal(b, b', q + 1);
    }
  }

  /** strtok reads nothing before its cursor: two buffers that agree from p on give the same call. */
  lemma NextTokenLocal(b: seq<char>, b': seq<char>, p: nat)
    requires Terminated(b) && Terminated(b') && |b| == |b'| && p < |b|
    requires forall k :: p <= k < |b| ==> b[k] == b'[k]
    ensures NextToken(b, p) == NextToken(b', p)
  {
    SkipDelimsLocal(b, b', p);
    var q := SkipDelims(b, p);
    if b[q] != '\0' {
      TokenEndLocal(b, b', q);
    }
  }

  /** Hence the whole token sequence from p depends only on the buffer from p on. */
  lemma {:induction false} TokensLocal(b: seq<char>, b': seq<char>, p: nat)
    requires Terminated(b) && Terminated(b') && |b| == |b'| && p < |b|
    requires forall k :: p <= k < |b| ==> b[k] == b'[k]
    ensures Tokens(b, p) == Tokens(b', p)
    decreases |b| - p
  {
    NextTokenLocal(b, b', p);
    var c := NextToken(b, p);
    if c.token.Some? {
      TokensLocal(b, b', c.resume);
    }
  }


  /** Cutting the ends of tokens leaves the buffer terminated and every token's text as it was. */
  lemma CutKeepsTexts(b: seq<char>, p: nat, m: nat)
    requires Terminated(b) && p < |b| && m <= |Tokens(b, p)|
    ensures var ts := Tokens(b, p);
      var r := CutEnds(b, ts[..m]);
      Terminated(r) && forall k :: 0 <= k < |ts| ==> Text(r, ts[k]) == Text(b, ts[k])
  {
    var ts := Tokens(b, p);
    var r := CutEnds(b, ts[..m]);
    CutEndsChanges(b, ts[..m]);
    TokensShape(b, p);
    forall k | 0 <= k < |ts| ensures Text(r, ts[k]) == Text(b, ts[k]) {
      TokensApart(b, p, m, k);
      CutEndsKeepText(b, ts[..m], ts[k]);
    }
  }

  /** A cut at no position inside t leaves t's text as it was. */
  lemma CutEndsKeepText(b: seq<char>, cut: seq<Span>, t: Span)
    requires t.start <= t.end <= |b|
    requires forall i :: 0 <= i < |cut| ==> !(t.start <= cut[i].end < t.end)
    ensures Text(CutEnds(b, cut), t) == Text(b, t)
  {
    CutEndsOutside(b, cut, t.start, t.end);
    var r := CutEnds(b, cut);
    assert r[t.start..t.end] == b[t.start..t.end];
  }

  /** No token ends inside another: the first m tokens all end outside the k-th token's text. */
  lemma TokensApart(b: seq<char>, p: nat, m: nat, k: nat)
    requires Terminated(b) && p < |b| && m <= |Tokens(b, p)| && k < |Tokens(b, p)|
    ensures var ts := Tokens(b, p);
      forall i :: 0 <= i < m ==> !(ts[k].start <= ts[..m][i].end < ts[k].end)
  {
    var ts := Tokens(b, p);
    var t := ts[k];
    TokensShape(b, p);
    forall i | 0 <= i < m ensures !(t.start <= ts[..m][i].end < t.end) {
      assert ts[..m][i] == ts[i];
      if i < k {
        assert ts[i].end < t.start;
      } else if k < i {
        assert IsTokenFrom(b, p, ts[i]);
        assert t.end < ts[i].start;
      }
    }
  }

  /** Cutting ends outside [lo, hi) leaves b[lo..hi] as it was. */
  lemma CutEndsOutside(b: seq<char>, cut: seq<Span>, lo: nat, hi: nat)
    requires forall i :: 0 <= i < |cut| ==> !(lo <= cut[i].end < hi)
    ensures forall x :: lo <= x < hi && x < |b| ==> CutEnds(b, cut)[x] == b[x]
  {
    CutEndsChanges(b, cut);
  }

  // ----- Successive calls -----

  /**
   * What the caller holds after i + 1 calls of a scan that began at p on a buffer
   * that held b0: the token is the i-th of Tokens(b0, p) (NULL, with the cursor on
   * a NUL, once they are exhausted); the ends of the tokens returned so far are
   * cut; and from the saved cursor on the buffer is still b0.
   */
  ghost predicate Scanning(b0: seq<char>, p: nat, s: Progress, i: nat)
    requires Terminated(b0) && p < |b0|
  {
    var ts := Tokens(b0, p);
    i <= |ts| && |s.buf| == |b0| && s.cursor < |b0| && Terminated(s.buf) &&
    (s.token.Some? ==> i < |ts| && s.token.value == ts[i] && Tokens(b0, s.cursor) == ts[i + 1..]) &&
    (s.token.None? ==> i == |ts| && s.buf[s.cursor] == '\0') &&
    s.buf == CutEnds(b0, ts[..Min(i + 1, |ts|)]) &&
    forall k :: s.cursor <= k < |b0| ==> s.buf[k] == b0[k]
  }

  /** The first call of a scan returns the first token and cuts its end. */
  lemma ScanningStart(b0: seq<char>, p: nat)
    requires Terminated(b0) && p < |b0|
    ensures Scanning(b0, p, Next(b0, p), 0)
  {
    var ts := Tokens(b0, p);
    var c := NextToken(b0, p);
    if c.token.Some? {
      assert ts[..1][..0] == [];
    }
  }

  /** A further call returns the next token and cuts its end; nothing before the cursor matters. */
  lemma ScanningStep(b0: seq<char>, p: nat, s: Progress, i: nat)
    requires Terminated(b0) && p < |b0|
    requires Scanning(b0, p, s, i) && s.token.Some?
    ensures Scanning(b0, p, Next(s.buf, s.cursor), i + 1)
  {
    NextTokenLocal(s.buf, b0, s.cursor);
    if NextToken(b0, s.cursor).token.Some? {
      ScanningFound(b0, p, s, i);
    } else {
      ScanningExhausted(b0, p, s, i);
    }
  }

  lemma ScanningFound(b0: seq<char>, p: nat, s: Progress, i: nat)
    requires Terminated(b0) && p < |b0|
    requires Scanning(b0, p, s, i) && s.token.Some?
    requires NextToken(b0, s.cursor).token.Some?
    ensures var c := NextToken(b0, s.cursor);
      Scanning(b0, p, Progress(Cut(s.buf, c.token), c.token, c.resume), i + 1)
  {
    var ts := Tokens(b0, p);
    var c := NextToken(b0, s.cursor);
    var t := c.token.value;
    TokensNext(b0, s.cursor, ts[i + 1..]);
    assert ts[i + 1] == t && Tokens(b0, c.resume) == ts[i + 2..];
    var buf' := Cut(s.buf, c.token);
    CutAgrees(b0, s.buf, s.cursor, t, c.resume);
    CutEndsSnoc(b0, ts, i + 1);
    assert Min(i + 1, |ts|) == i + 1 && Min(i + 2, |ts|) == i + 2;
    assert buf' == CutEnds(b0, ts[..i + 2]);
    CutKeepsTerminated(s.buf, t.end);
  }

  /** A call that finds a token is followed by the tokens from its resume point. */
  lemma TokensNext(b: seq<char>, q: nat, rest: seq<Span>)
    requires Terminated(b) && q < |b| && Tokens(b, q) == rest
    requires NextToken(b, q).token.Some?
    ensures var c := NextToken(b, q);
      |rest| > 0 && rest[0] == c.token.value && Tokens(b, c.resume) == rest[1..]
  {
  }

  /** Cutting the token's end keeps the buffer equal to b0 from the new cursor on. */
  lemma CutAgrees(b0: seq<char>, buf: seq<char>, cursor: nat, t: Span, resume: nat)
    requires |buf| == |b0| && cursor <= t.end < |b0|
    requires forall k :: cursor <= k < |b0| ==> buf[k] == b0[k]
    requires resume == if b0[t.end] == '\0' then t.end else t.end + 1
    ensures forall k :: resume <= k < |b0| ==> Cut(buf, Some(t))[k] == b0[k]
  {
  }

  lemma ScanningExhausted(b0: seq<char>, p: nat, s: Progress, i: nat)
    requires Terminated(b0) && p < |b0|
    requires Scanning(b0, p, s, i) && s.token.Some?
    requires NextToken(b0, s.cursor).token.None?
    ensures var c := NextToken(b0, s.cursor);
      Scanning(b0, p, Progress(s.buf, c.token, c.resume), i + 1)
  {
  }

  lemma CutKeepsTerminated(b: seq<char>, e: nat)
    requires Terminated(b) && e < |b|
    ensures Terminated(b[e := '\0'])
  {
  }

  /** Returning one more token cuts exactly its end. */
  lemma CutEndsSnoc(b: seq<char>, ts: seq<Span>, m: nat)
    requires m < |ts| && ts[m].end < |b|
    ensures CutEnds(b, ts[..m + 1]) == CutEnds(b, ts[..m])[ts[m].end := '\0']
  {
    assert ts[..m + 1][..m] == ts[..m];
  }

  /** A call whose cursor sits on a NUL returns NULL and changes nothing. */
  lemma NulStops(s: Progress)
    requires Terminated(s.buf) && s.cursor < |s.buf| && s.buf[s.cursor] == '\0' && s.token.None?
    ensures Next(s.buf, s.cursor) == s
  {
    assert SkipDelims(s.buf, s.cursor) == s.cursor;
  }

  /** Once the tokens are exhausted, strtok keeps returning NULL and the buffer stays as it is. */
  lemma ScanningDone(b0: seq<char>, p: nat, s: Progress, i: nat)
    requires Terminated(b0) && p < |b0| && Scanning(b0, p, s, i) && s.token.None?
    ensures i == |Tokens(b0, p)| && Next(s.buf, s.cursor) == s
  {
    NulStops(s);
  }

  /** Whatever the calls have cut, every token still reads in the buffer as it did in b0. */
  lemma ScanningText(b0: seq<char>, p: nat, s: Progress, i: nat, k: nat)
    requires Terminated(b0) && p < |b0| && Scanning(b0, p, s, i) && k < |Tokens(b0, p)|
    ensures var t := Tokens(b0, p)[k];
      t.start < t.end < |b0| && Text(s.buf, t) == Text(b0, t)
  {
    var ts := Tokens(b0, p);
    CutKeepsTexts(b0, p, Min(i + 1, |ts|));
    TokensShape(b0, p);
    assert IsTokenFrom(b0, p, ts[k]);
  }

  /** strtok never reads past a NUL: a scan from p that meets a NUL at x returns a token ending by x. */
  lemma NextTokenStopsAtNul(b: seq<char>, p: nat, x: nat)
    requires Terminated(b) && p <= x < |b| && b[x] == '\0'
    ensures var r := NextToken(b, p);
      r.resume <= x && (r.token.Some? ==> r.token.value.end <= x)
  {
  }

  /** b2 keeps every NUL of b1. */
  ghost predicate NulsKept(b1: seq<char>, b2: seq<char>) {
    |b1| == |b2| && forall x :: 0 <= x < |b1| && b1[x] == '\0' ==> b2[x] == '\0'
  }

  lemma NulsKeptTransitive(b1: seq<char>, b2: seq<char>, b3: seq<char>)
    requires NulsKept(b1, b2) && NulsKept(b2, b3)
    ensures NulsKept(b1, b3)
  {
  }

  /** strtok only ever writes NULs. */
  lemma CutEndsKeepsNuls(b: seq<char>, ts: seq<Span>)
    requires Terminated(b)
    ensures NulsKept(b, CutEnds(b, ts)) && Terminated(CutEnds(b, ts))
  {
    CutEndsChanges(b, ts);
  }

  lemma CutKeepsNuls(b: seq<char>, token: Option<Span>)
    requires Terminated(b)
    ensures NulsKept(b, Cut(b, token)) && Terminated(Cut(b, token))
  {
  }
}
