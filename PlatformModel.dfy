/**
 * The three-axis platform's data model: the axis enumeration with its wire
 * codes, the position record with its per-axis indexer, the status record
 * with its per-axis boundary flags, and the fixed travel limits.
 */
module PlatformModel {
  import opened CSharp
  import opened Wrappers

  /** An axis of the platform; the code is the byte sent on the wire. */
  datatype Axis = X | Y | Z
  {
    function Code(): byte {
      match this
      case X => 0x01
      case Y => 0x02
      case Z => 0x03
    }
  }

  /** The axis whose code is `b`, if there is one. */
  function AxisOf(b: byte): (r: Option<Axis>)
    ensures r.Some? ==> r.value.Code() == b
    ensures forall a: Axis :: a.Code() == b ==> r == Some(a)
  {
    if b == 0x01 then Some(X)
    else if b == 0x02 then Some(Y)
    else if b == 0x03 then Some(Z)
    else None
  }

  /** Codes are X = 1, Y = 2, Z = 3, so no two axes share a code. */
  lemma AxisCodes()
    ensures X.Code() == 1 && Y.Code() == 2 && Z.Code() == 3
    ensures forall a: Axis, b: Axis :: a.Code() == b.Code() ==> a == b
  {
    forall a: Axis, b: Axis | a.Code() == b.Code()
      ensures a == b
    {
      assert AxisOf(a.Code()) == Some(a) && AxisOf(b.Code()) == Some(b);
    }
  }

  // Soft travel limits, in steps.
  const MaxStepX: int := 15500
  const MaxStepY: int := 7600
  const MaxStepZ: int := 4600
  /** The Z floor that keeps the probe off the chassis. */
  const ZAxisMinLimit: int := -2000
  const MinValidStep: int := 1
  const MaxValidStep: int := 16500

  /** The valid step range is non-empty and reaches past every axis's travel. */
  lemma LimitsOrdered()
    ensures 0 < MinValidStep <= MaxValidStep
    ensures MaxStepX < MaxValidStep && MaxStepY < MaxValidStep && MaxStepZ < MaxValidStep
    ensures ZAxisMinLimit < 0
  {
  }

  /** A boundary-flag table with every axis present and false. */
  const AllClear: map<Axis, bool> := map[X := false, Y := false, Z := false]

  /** The table has an entry for every axis, so reading any flag cannot fail. */
  predicate Covers(m: map<Axis, bool>) {
    forall a: Axis :: a in m
  }

  lemma AllClearCovers()
    ensures Covers(AllClear) && forall a: Axis :: !AllClear[a]
  {
    forall a: Axis
      ensures a in AllClear && !AllClear[a]
    {
      match a
      case X =>
      case Y =>
      case Z =>
    }
  }

  /** The current coordinate of each axis, addressed by the axis indexer. */
  class PlatformPosition {
    var x: int
    var y: int
    var z: int

    constructor ()
      ensures x == 0 && y == 0 && z == 0
    {
      x, y, z := 0, 0, 0;
    }

    /** The indexer's getter. */
    function Get(axis: Axis): int
      reads this
    {
      match axis
      case X => x
      case Y => y
      case Z => z
    }

    /** The indexer's setter: the given axis takes the value and the others keep theirs. */
    method Set(axis: Axis, value: int)
      modifies this
      ensures Get(axis) == value
      ensures forall a: Axis :: a != axis ==> Get(a) == old(Get(a))
      ensures axis != X ==> x == old(x)
      ensures axis != Y ==> y == old(y)
      ensures axis != Z ==> z == old(z)
    {
      match axis {
        case X => x := value;
        case Y => y := value;
        case Z => z := value;
      }
    }
  }

  /** The run flags of the platform and, per axis, whether the min or max switch was last seen. */
  class PlatformStatus {
    var isMoving: bool
    var isHomed: bool
    var isAtMin: map<Axis, bool>
    var isAtMax: map<Axis, bool>

    /** Both tables always hold an entry for every axis. */
    predicate Valid()
      reads this
    {
      Covers(isAtMin) && Covers(isAtMax)
    }

    constructor ()
      ensures Valid()
      ensures !isMoving && !isHomed
      ensures forall a: Axis :: !isAtMin[a] && !isAtMax[a]
    {
      isMoving, isHomed := false, false;
      isAtMin, isAtMax := AllClear, AllClear;
      AllClearCovers();
    }
  }
}
