/** Tank–tank separation, `collide_tanks` in `src/main.rs`. For every ordered pair
    (i, j) of tanks with different transforms whose centres are closer than two
    radii, the pass stores a push of half the overlap for tank i along the centre line
    and the opposite push for tank j, OVERWRITING what the buffer held. Only then are
    the buffered pushes applied, so every push is computed from start-of-pass positions.
    Because entries are overwritten, each tank ends up with the push from one partner:
    its overlapping partner of highest index (`Movement`). */
module Separation {
  import opened Vectors
  import opened Tanks

  /** Centres closer than this overlap. */
  const CONTACT: real := TANK_SIZE * 2.0

  /** Tanks i and j push each other: their transforms differ (all tanks share z, scale
      and rotation, so this is a difference of xy) and they overlap. */
  predicate Overlapping(ps: seq<Vec2>, len: Vec2 -> real, i: int, j: int)
    requires 0 <= i < |ps| && 0 <= j < |ps|
  {
    ps[i] != ps[j] && len(Sub(ps[i], ps[j])) < CONTACT
  }

  lemma OverlappingSymmetric(ps: seq<Vec2>, len: Vec2 -> real, i: int, j: int)
    requires IsLength(len)
    requires 0 <= i < |ps| && 0 <= j < |ps|
    ensures Overlapping(ps, len, i, j) <==> Overlapping(ps, len, j, i)
  {
    DistanceSymmetric(len, ps[i], ps[j]);
  }

  /** What the pass stores for the tank at `a` when its sibling is at `b`:
      `direction * move_len * 0.5`. */
  function Push(a: Vec2, b: Vec2, len: Vec2 -> real): Vec2
    requires IsLength(len)
  {
    Scale(Scale(Unit(Sub(a, b), len), CONTACT - len(Sub(a, b))), 0.5)
  }

  /** What the pass stores for the sibling in the same step, `direction * move_len *
      -0.5`, is exactly the push the sibling would get from the tank: the two writes
      are equal and opposite. */
  lemma PushAntisymmetric(a: Vec2, b: Vec2, len: Vec2 -> real)
    requires IsLength(len)
    ensures Scale(Scale(Unit(Sub(a, b), len), CONTACT - len(Sub(a, b))), -0.5) == Push(b, a, len)
    ensures Push(b, a, len) == Neg(Push(a, b, len))
  {
    var u, m := Unit(Sub(a, b), len), CONTACT - len(Sub(a, b));
    assert Sub(b, a) == Neg(Sub(a, b));
    UnitOfNeg(len, Sub(a, b));
    DistanceSymmetric(len, a, b);
    assert Unit(Sub(b, a), len) == Neg(u);
    assert (-u.x) * m * 0.5 == u.x * m * -0.5 == -(u.x * m * 0.5);
    assert (-u.y) * m * 0.5 == u.y * m * -0.5 == -(u.y * m * 0.5);
  }

  /** The highest index below `bound` of a tank overlapping tank k, or -1 if none. */
  function LastPartner(ps: seq<Vec2>, len: Vec2 -> real, k: int, bound: int): (m: int)
    requires 0 <= k < |ps| && 0 <= bound <= |ps|
    ensures -1 <= m < bound
    ensures m >= 0 ==> Overlapping(ps, len, k, m)
    ensures forall j :: m < j < bound ==> !Overlapping(ps, len, k, j)
    decreases bound
  {
    if bound == 0 then -1
    else if Overlapping(ps, len, k, bound - 1) then bound - 1
    else LastPartner(ps, len, k, bound - 1)
  }

  /** The displacement `collide_tanks` gives tank k: the push from its last
      overlapping partner, or nothing. */
  function Movement(ps: seq<Vec2>, len: Vec2 -> real, k: int): (r: Vec2)
    requires IsLength(len)
    requires 0 <= k < |ps|
    ensures r != Zero <==> exists j :: 0 <= j < |ps| && Overlapping(ps, len, k, j)
    ensures r != Zero ==> exists j :: 0 <= j < |ps| && Overlapping(ps, len, k, j) && r == Push(ps[k], ps[j], len)
  {
    var m := LastPartner(ps, len, k, |ps|);
    if m >= 0 then
      PushLength(ps[k], ps[m], len);
      Push(ps[k], ps[m], len)
    else Zero
  }

  /** The buffer entry of tank k once rows 0..i-1 of the pair scan are done. A later
      row r writes k only when r overlaps k, and row k writes k once per partner. */
  ghost function AfterRows(ps: seq<Vec2>, len: Vec2 -> real, k: int, i: int): Vec2
    requires IsLength(len)
    requires 0 <= k < |ps| && 0 <= i <= |ps|
  {
    var m := LastPartner(ps, len, k, i);
    if m > k then Push(ps[k], ps[m], len)
    else if k < i then Movement(ps, len, k)
    else if m >= 0 then Push(ps[k], ps[m], len)
    else Zero
  }

  /** The buffer entry of tank k within row i, once columns 0..j-1 are done. */
  ghost function InRow(ps: seq<Vec2>, len: Vec2 -> real, k: int, i: int, j: int): Vec2
    requires IsLength(len)
    requires 0 <= k < |ps| && 0 <= i < |ps| && 0 <= j <= |ps|
  {
    if k == i then
      var m := LastPartner(ps, len, i, j);
      if m >= 0 then Push(ps[i], ps[m], len) else AfterRows(ps, len, i, i)
    else if k < j && Overlapping(ps, len, i, k) then Push(ps[k], ps[i], len)
    else AfterRows(ps, len, k, i)
  }

  lemma RowStart(ps: seq<Vec2>, len: Vec2 -> real, k: int, i: int)
    requires IsLength(len)
    requires 0 <= k < |ps| && 0 <= i < |ps|
    ensures InRow(ps, len, k, i, 0) == AfterRows(ps, len, k, i)
  {
  }

  /** Column j of row i writes entry i and entry j when they overlap, nothing else. */
  lemma RowNext(ps: seq<Vec2>, len: Vec2 -> real, k: int, i: int, j: int)
    requires IsLength(len)
    requires 0 <= k < |ps| && 0 <= i < |ps| && 0 <= j < |ps|
    ensures InRow(ps, len, k, i, j + 1) ==
      if Overlapping(ps, len, i, j) && k == i then Push(ps[i], ps[j], len)
      else if Overlapping(ps, len, i, j) && k == j then Push(ps[j], ps[i], len)
      else InRow(ps, len, k, i, j)
  {
    assert !Overlapping(ps, len, i, i);
  }

  /** A finished row i leaves the entries as `AfterRows` says for rows 0..i. */
  lemma RowDone(ps: seq<Vec2>, len: Vec2 -> real, k: int, i: int)
    requires IsLength(len)
    requires 0 <= k < |ps| && 0 <= i < |ps|
    ensures InRow(ps, len, k, i, |ps|) == AfterRows(ps, len, k, i + 1)
  {
    var n := |ps|;
    assert !Overlapping(ps, len, i, i);
    OverlappingSymmetric(ps, len, i, k);
    if k == i {
      var mi := LastPartner(ps, len, i, i);
      assert LastPartner(ps, len, i, i + 1) == mi;
    }
  }

  /** All rows done: every entry is the tank's `Movement`. */
  lemma AllRowsDone(ps: seq<Vec2>, len: Vec2 -> real, k: int)
    requires IsLength(len)
    requires 0 <= k < |ps|
    ensures AfterRows(ps, len, k, |ps|) == Movement(ps, len, k)
  {
  }

  /** The first loop of `collide_tanks`: fill the displacement buffer by scanning
      every ordered pair. */
  method ComputeMovements(ps: seq<Vec2>, len: Vec2 -> real) returns (mv: seq<Vec2>)
    requires IsLength(len)
    ensures |mv| == |ps|
    ensures forall k :: 0 <= k < |ps| ==> mv[k] == Movement(ps, len, k)
  {
    var n := |ps|;
    mv := seq(n, _ => Zero);
    var i := 0;
    while i < n
      invariant 0 <= i <= n && |mv| == n
      invariant forall k :: 0 <= k < n ==> mv[k] == AfterRows(ps, len, k, i)
    {
      mv := ScanRow(ps, len, mv, i);
      i := i + 1;
    }
    forall k | 0 <= k < n ensures mv[k] == Movement(ps, len, k) {
      AllRowsDone(ps, len, k);
    }
  }

  /** Row i of the pair scan: tank i against every tank j in turn. */
  method ScanRow(ps: seq<Vec2>, len: Vec2 -> real, mv0: seq<Vec2>, i: int) returns (mv: seq<Vec2>)
    requires IsLength(len)
    requires 0 <= i < |ps| && |mv0| == |ps|
    requires forall k :: 0 <= k < |ps| ==> mv0[k] == AfterRows(ps, len, k, i)
    ensures |mv| == |ps|
    ensures forall k :: 0 <= k < |ps| ==> mv[k] == AfterRows(ps, len, k, i + 1)
  {
    var n := |ps|;
    mv := mv0;
    forall k | 0 <= k < n ensures mv[k] == InRow(ps, len, k, i, 0) {
      RowStart(ps, len, k, i);
    }
    var j := 0;
    while j < n
      invariant 0 <= j <= n && |mv| == n
      invariant forall k :: 0 <= k < n ==> mv[k] == InRow(ps, len, k, i, j)
    {
      mv := ScanPair(ps, len, mv, i, j);
      j := j + 1;
    }
    forall k | 0 <= k < n ensures mv[k] == AfterRows(ps, len, k, i + 1) {
      RowDone(ps, len, k, i);
    }
  }

  /** One step of the pair scan: when tanks i and j overlap, store the push for i and
      the opposite push for j. */
  method ScanPair(ps: seq<Vec2>, len: Vec2 -> real, mv0: seq<Vec2>, i: int, j: int) returns (mv: seq<Vec2>)
    requires IsLength(len)
    requires 0 <= i < |ps| && 0 <= j < |ps| && |mv0| == |ps|
    requires forall k :: 0 <= k < |ps| ==> mv0[k] == InRow(ps, len, k, i, j)
    ensures |mv| == |ps|
    ensures forall k :: 0 <= k < |ps| ==> mv[k] == InRow(ps, len, k, i, j + 1)
  {
    mv := mv0;
    if ps[i] != ps[j] {
      var distance := len(Sub(ps[i], ps[j]));
      if distance < TANK_SIZE * 2.0 {
        var direction := Unit(Sub(ps[i], ps[j]), len);
        var moveLen := TANK_SIZE * 2.0 - distance;
        mv := mv[i := Scale(Scale(direction, moveLen), 0.5)];
        mv := mv[j := Scale(Scale(direction, moveLen), -0.5)];
        PushAntisymmetric(ps[i], ps[j], len);
      }
    }
    forall k | 0 <= k < |ps| ensures mv[k] == InRow(ps, len, k, i, j + 1) {
      RowNext(ps, len, k, i, j);
    }
  }

  /** The second loop of `collide_tanks`: every tank moves by its buffered push. */
  function Separated(ps: seq<Vec2>, len: Vec2 -> real): seq<Vec2>
    requires IsLength(len)
  {
    seq(|ps|, k requires 0 <= k < |ps| => Add(ps[k], Movement(ps, len, k)))
  }

  /** A tank that overlaps no other tank is not moved. */
  lemma IsolatedTankStays(ps: seq<Vec2>, len: Vec2 -> real, k: int)
    requires IsLength(len)
    requires 0 <= k < |ps|
    requires forall j :: 0 <= j < |ps| ==> !Overlapping(ps, len, k, j)
    ensures Movement(ps, len, k) == Zero
    ensures Separated(ps, len)[k] == ps[k]
  {
    AddZero(ps[k]);
  }

  /** A push is half the overlap long: never more than one tank radius. */
  lemma PushLength(a: Vec2, b: Vec2, len: Vec2 -> real)
    requires IsLength(len)
    requires a != b && len(Sub(a, b)) < CONTACT
    ensures len(Push(a, b, len)) == (CONTACT - len(Sub(a, b))) * 0.5
    ensures 0.0 < len(Push(a, b, len)) < TANK_SIZE
  {
    var d := Sub(a, b);
    assert d != Zero;
    var u, m := Unit(d, len), CONTACT - len(d);
    UnitHasLengthOne(len, d);
    assert len(Scale(u, m)) == Abs(m) * len(u);
    assert len(Scale(Scale(u, m), 0.5)) == Abs(0.5) * len(Scale(u, m));
  }

  /** The vector algebra of a separated pair: if a − b is l along the unit u, moving a
      by half of (CONTACT − l) along u and b by the opposite leaves a − b CONTACT along u. */
  lemma PairAlgebra(a: Vec2, b: Vec2, u: Vec2, l: real)
    requires Sub(a, b) == Scale(u, l)
    ensures var p := Scale(Scale(u, CONTACT - l), 0.5);
      Sub(Add(a, p), Add(b, Neg(p))) == Scale(u, CONTACT)
  {
    var p := Scale(Scale(u, CONTACT - l), 0.5);
    ScaleScale(u, CONTACT - l, 0.5);
    ScaleScale(u, (CONTACT - l) * 0.5, 2.0);
    assert Sub(Add(a, p), Add(b, Neg(p))) == Add(Sub(a, b), Scale(p, 2.0));
    AddScales(u, l, CONTACT - l);
  }

  /** A unit vector scaled by c >= 0 is c long. */
  lemma StretchedUnit(len: Vec2 -> real, u: Vec2, c: real)
    requires IsLength(len)
    requires len(u) == 1.0 && c >= 0.0
    ensures len(Scale(u, c)) == c
  {
    assert len(Scale(u, c)) == Abs(c) * len(u);
  }

  /** Applying both pushes of an overlapping pair puts the two centres exactly two
      radii apart. */
  lemma PushesSeparate(a: Vec2, b: Vec2, len: Vec2 -> real)
    requires IsLength(len)
    requires a != b && len(Sub(a, b)) < CONTACT
    ensures len(Sub(Add(a, Push(a, b, len)), Add(b, Push(b, a, len)))) == CONTACT
  {
    var d := Sub(a, b);
    var u := Unit(d, len);
    UnitHasLengthOne(len, d);
    PushAntisymmetric(a, b, len);
    PairAlgebra(a, b, u, len(d));
    StretchedUnit(len, u, CONTACT);
  }

  /** Two tanks that overlap only each other are pushed equally and oppositely, each
      by half the overlap along the centre line, and end exactly two radii apart. */
  lemma PairSeparates(ps: seq<Vec2>, len: Vec2 -> real, a: int, b: int)
    requires IsLength(len)
    requires 0 <= a < |ps| && 0 <= b < |ps|
    requires Overlapping(ps, len, a, b)
    requires forall j :: 0 <= j < |ps| && j != b ==> !Overlapping(ps, len, a, j)
    requires forall j :: 0 <= j < |ps| && j != a ==> !Overlapping(ps, len, b, j)
    ensures Movement(ps, len, a) == Push(ps[a], ps[b], len)
    ensures Movement(ps, len, b) == Neg(Movement(ps, len, a))
    ensures len(Movement(ps, len, a)) == (CONTACT - len(Sub(ps[a], ps[b]))) * 0.5
    ensures len(Sub(Separated(ps, len)[a], Separated(ps, len)[b])) == CONTACT
  {
    OverlappingSymmetric(ps, len, a, b);
    PushAntisymmetric(ps[a], ps[b], len);
    PushLength(ps[a], ps[b], len);
    assert Movement(ps, len, a) == Push(ps[a], ps[b], len);
    assert Movement(ps, len, b) == Push(ps[b], ps[a], len);
    PushesSeparate(ps[a], ps[b], len);
  }
}
