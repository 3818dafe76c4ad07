/**
 * The two destination descriptors the parser writes into: the scene descriptor
 * (FieldInfoMap) and the result descriptor (FieldDataMap).  In the program each field
 * is a pointer into a GPU-mapped buffer; here each is an array of the field's own
 * length, a scalar being an array of length one.
 */
module FieldInfo {
  /** Dimensions of the simulated field, shared with the shaders. */
  const NUM_DIMS: nat := 2
  /** Capacity of each point-source array. */
  const MAX_POINT_SOURCE: nat := 32

  /** The contents of both descriptors at one moment. */
  datatype Scene = Scene(
    matC: seq<real>,
    psn: seq<int>,
    psLoc: seq<real>,
    psFreq: seq<real>,
    psPhase: seq<real>,
    fieldOffset: seq<real>,
    fieldDims: seq<real>,
    fieldSize: seq<nat>,
    written: seq<int>,
    fieldMax: seq<real>,
    fieldMin: seq<real>)
  {
    /** Every field has the length its descriptor gives it. */
    ghost predicate Shaped() {
      |matC| == 1 && |psn| == 1 &&
      |psLoc| == NUM_DIMS * MAX_POINT_SOURCE && |psFreq| == MAX_POINT_SOURCE && |psPhase| == MAX_POINT_SOURCE &&
      |fieldOffset| == NUM_DIMS && |fieldDims| == NUM_DIMS && |fieldSize| == NUM_DIMS &&
      |written| == 1 && |fieldMax| == 1 && |fieldMin| == 1
    }
  }

  /** The scene descriptor: medium constant, point sources and field geometry. */
  class FieldInfoMap {
    const matC: array<real>
    const psn: array<int>
    const psLoc: array<real>
    const psFreq: array<real>
    const psPhase: array<real>
    const fieldOffset: array<real>
    const fieldDims: array<real>
    const fieldSize: array<nat>
    ghost const Repr: set<object>

    ghost predicate Valid()
    {
      Repr == {matC as object, psn, psLoc, psFreq, psPhase, fieldOffset, fieldDims, fieldSize} &&
      matC.Length == 1 && psn.Length == 1 &&
      psLoc.Length == NUM_DIMS * MAX_POINT_SOURCE &&
      psFreq.Length == MAX_POINT_SOURCE && psPhase.Length == MAX_POINT_SOURCE &&
      fieldOffset.Length == NUM_DIMS && fieldDims.Length == NUM_DIMS && fieldSize.Length == NUM_DIMS &&
      // the fields are separate regions of the mapped buffer
      matC != psLoc && matC != psFreq && matC != psPhase && matC != fieldOffset && matC != fieldDims &&
      psLoc != psFreq && psLoc != psPhase && psLoc != fieldOffset && psLoc != fieldDims &&
      psFreq != psPhase && psFreq != fieldOffset && psFreq != fieldDims &&
      psPhase != fieldOffset && psPhase != fieldDims &&
      fieldOffset != fieldDims
    }

    /**
     * Fresh, zero-filled fields.  The program zero-fills the mapped buffer but then
     * presets fielddims and fieldsize before parsing; parsing relies on nothing
     * about the initial contents.
     */
    constructor ()
      ensures Valid() && fresh(Repr)
      ensures matC[..] == [0.0] && psn[..] == [0]
      ensures forall i :: 0 <= i < psLoc.Length ==> psLoc[i] == 0.0
      ensures forall i :: 0 <= i < MAX_POINT_SOURCE ==> psFreq[i] == 0.0 && psPhase[i] == 0.0
      ensures forall i :: 0 <= i < NUM_DIMS ==> fieldOffset[i] == 0.0 && fieldDims[i] == 0.0 && fieldSize[i] == 0
    {
      var c := new real[1](_ => 0.0);
      var n := new int[1](_ => 0);
      var l := new real[NUM_DIMS * MAX_POINT_SOURCE](_ => 0.0);
      var f := new real[MAX_POINT_SOURCE](_ => 0.0);
      var p := new real[MAX_POINT_SOURCE](_ => 0.0);
      var o := new real[NUM_DIMS](_ => 0.0);
      var d := new real[NUM_DIMS](_ => 0.0);
      var s := new nat[NUM_DIMS](_ => 0);
      matC, psn, psLoc, psFreq, psPhase, fieldOffset, fieldDims, fieldSize := c, n, l, f, p, o, d, s;
      Repr := {c as object, n, l, f, p, o, d, s};
    }
  }

  /** The result descriptor: a written flag and the two field bounds. */
  class FieldDataMap {
    const written: array<int>
    const fieldMax: array<real>
    const fieldMin: array<real>
    ghost const Repr: set<object>

    ghost predicate Valid()
    {
      Repr == {written as object, fieldMax, fieldMin} &&
      written.Length == 1 && fieldMax.Length == 1 && fieldMin.Length == 1 &&
      fieldMax != fieldMin
    }

    constructor ()
      ensures Valid() && fresh(Repr)
      ensures written[..] == [0] && fieldMax[..] == [0.0] && fieldMin[..] == [0.0]
    {
      var w := new int[1](_ => 0);
      var hi := new real[1](_ => 0.0);
      var lo := new real[1](_ => 0.0);
      written, fieldMax, fieldMin := w, hi, lo;
      Repr := {w as object, hi, lo};
    }
  }

  /**
   * Both descriptors are well formed and share no field.  It reads no mutable
   * state (every field it names is constant), so once a caller has it, no write
   * to the descriptors' arrays can take it away.
   */
  ghost predicate Separate(fim: FieldInfoMap, fdm: FieldDataMap)
  {
    fim.Valid() && fdm.Valid() && fim.Repr !! fdm.Repr
  }

  /** The arrays of both descriptors; for well-formed descriptors, the union of their Repr sets. */
  ghost function Arrays(fim: FieldInfoMap, fdm: FieldDataMap): (r: set<object>)
    ensures Separate(fim, fdm) ==> r == fim.Repr + fdm.Repr
  {
    {fim.matC as object, fim.psn, fim.psLoc, fim.psFreq, fim.psPhase, fim.fieldOffset, fim.fieldDims, fim.fieldSize,
     fdm.written, fdm.fieldMax, fdm.fieldMin}
  }

  /** What both descriptors hold now. */
  ghost function Snapshot(fim: FieldInfoMap, fdm: FieldDataMap): (s: Scene)
    reads Arrays(fim, fdm)
    ensures Separate(fim, fdm) ==> s.Shaped()
  {
    Scene(fim.matC[..], fim.psn[..], fim.psLoc[..], fim.psFreq[..], fim.psPhase[..],
          fim.fieldOffset[..], fim.fieldDims[..], fim.fieldSize[..],
          fdm.written[..], fdm.fieldMax[..], fdm.fieldMin[..])
  }
}
