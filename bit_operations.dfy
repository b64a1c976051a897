/**
 * The four-valued bit algebra of the assembler simulator (AsmTools.BitOperations).
 *
 * A bit is ZERO or ONE (concrete), UNDEFINED (could be either, uncorrelated with
 * anything else) or KNOWN (a definite value that is not evaluated here). The scalar
 * operations are the source's truth tables, written out as they are, oddities
 * included. Bit-vectors are arrays with index 0 the least-significant bit; every
 * array operation is a method with a loop, proved against a function on sequences,
 * and the functions are related to unsigned and two's-complement integers by lemmas.
 *
 * The flag wrappers CarryFlag, OverflowFlag and AuxiliaryFlag of the source each hold
 * one Bt and are modelled as that Bt.
 */
module BitOperations {

  datatype Bt = ZERO | ONE | UNDEFINED | KNOWN

  /** Output of a one-bit adder or subtractor: the bit produced and the carry (borrow) out. */
  datatype BitResult = BitResult(bit: Bt, carry: Bt)

  predicate IsConcrete(b: Bt) {
    b == ZERO || b == ONE
  }

  /** The number a concrete bit stands for; the other two values count as 0. */
  function BitValue(b: Bt): nat {
    if b == ONE then 1 else 0
  }

  /**
   * Covers(b, x): the concrete bit x is one of the values b stands for.
   * ZERO and ONE stand for themselves, UNDEFINED and KNOWN for both.
   */
  predicate Covers(b: Bt, x: Bt)
    requires IsConcrete(x)
  {
    IsConcrete(b) ==> b == x
  }

  // ---------------------------------------------------------------------------
  // Scalar truth tables
  // ---------------------------------------------------------------------------

  /** Bit complement. */
  function Neg(a: Bt): (r: Bt)
    ensures IsConcrete(r) <==> IsConcrete(a)
    ensures IsConcrete(a) ==> BitValue(r) == 1 - BitValue(a)
    ensures !IsConcrete(a) ==> r == a
  {
    match a
    case ONE => ZERO
    case ZERO => ONE
    case UNDEFINED => UNDEFINED
    case KNOWN => KNOWN
  }

  function And(a: Bt, b: Bt): (r: Bt)
    ensures IsConcrete(a) && IsConcrete(b) ==> IsConcrete(r) && BitValue(r) == BitValue(a) * BitValue(b)
    ensures a == ZERO || b == ZERO ==> r == ZERO
    ensures r == UNDEFINED <==> (a == UNDEFINED || b == UNDEFINED) && a != ZERO && b != ZERO
    ensures r == KNOWN <==> (a == KNOWN || b == KNOWN) && a != ZERO && b != ZERO && a != UNDEFINED && b != UNDEFINED
  {
    match a
    case ZERO => ZERO
    case ONE => b
    case UNDEFINED =>
      (match b
       case ZERO => ZERO
       case ONE => UNDEFINED
       case UNDEFINED => UNDEFINED
       case KNOWN => UNDEFINED)
    case KNOWN =>
      (match b
       case ZERO => ZERO
       case ONE => KNOWN
       case UNDEFINED => UNDEFINED
       case KNOWN => KNOWN)
  }

  /**
   * Or. The UNDEFINED row is the same as And's (or(UNDEFINED, ZERO) = ZERO,
   * or(UNDEFINED, ONE) = UNDEFINED), so Or is neither commutative nor sound there;
   * see OrNotCommutative and OrUnsoundAtUndefinedZero.
   */
  function Or(a: Bt, b: Bt): (r: Bt)
    ensures IsConcrete(a) && IsConcrete(b) ==> IsConcrete(r) && (r == ONE <==> a == ONE || b == ONE)
    ensures a == ONE ==> r == ONE
    ensures a == ZERO ==> r == b
  {
    match a
    case ZERO => b
    case ONE => ONE
    case UNDEFINED =>
      (match b
       case ZERO => ZERO
       case ONE => UNDEFINED
       case UNDEFINED => UNDEFINED
       case KNOWN => UNDEFINED)
    case KNOWN =>
      (match b
       case ZERO => KNOWN
       case ONE => ONE
       case UNDEFINED => UNDEFINED
       case KNOWN => KNOWN)
  }

  function Xor(a: Bt, b: Bt): (r: Bt)
    ensures IsConcrete(a) && IsConcrete(b) ==> IsConcrete(r) && BitValue(r) == (BitValue(a) + BitValue(b)) % 2
    ensures r == UNDEFINED <==> a == UNDEFINED || b == UNDEFINED
    ensures r == KNOWN <==> (a == KNOWN || b == KNOWN) && a != UNDEFINED && b != UNDEFINED
  {
    match a
    case ZERO => b
    case ONE => Neg(b)
    case UNDEFINED => UNDEFINED
    case KNOWN =>
      (match b
       case ZERO => KNOWN
       case ONE => KNOWN
       case UNDEFINED => UNDEFINED
       case KNOWN => KNOWN)
  }

  /** Bit equality: ONE when the bits are equal. */
  function Eq(a: Bt, b: Bt): (r: Bt)
    ensures IsConcrete(a) && IsConcrete(b) ==> IsConcrete(r) && (r == ONE <==> a == b)
    ensures r == UNDEFINED <==> a == UNDEFINED || b == UNDEFINED
    ensures r == KNOWN <==> (a == KNOWN || b == KNOWN) && a != UNDEFINED && b != UNDEFINED
  {
    match a
    case ZERO => Neg(b)
    case ONE => b
    case UNDEFINED => UNDEFINED
    case KNOWN => if b == UNDEFINED then UNDEFINED else KNOWN
  }

  lemma {:induction false} NegInvolution(a: Bt)
    ensures Neg(Neg(a)) == a
  {
  }

  lemma {:induction false} AndCommutative(a: Bt, b: Bt)
    ensures And(a, b) == And(b, a)
  {
  }

  lemma {:induction false} XorCommutative(a: Bt, b: Bt)
    ensures Xor(a, b) == Xor(b, a)
  {
  }

  lemma {:induction false} AndXorIdentities(x: Bt)
    ensures And(ZERO, x) == ZERO && And(ONE, x) == x
    ensures Xor(ZERO, x) == x && Xor(ONE, x) == Neg(x) && Xor(UNDEFINED, x) == UNDEFINED
  {
  }

  lemma {:induction false} OrIdentities(x: Bt)
    ensures Or(ONE, x) == ONE && Or(ZERO, x) == x && Or(KNOWN, ZERO) == KNOWN
  {
  }

  lemma {:induction false} OrNotCommutative()
    ensures Or(UNDEFINED, ZERO) == ZERO && Or(ZERO, UNDEFINED) == UNDEFINED
    ensures exists a: Bt, b: Bt :: Or(a, b) != Or(b, a)
  {
    assert Or(UNDEFINED, ZERO) != Or(ZERO, UNDEFINED);
  }

  lemma {:induction false} EqIsNegXor(a: Bt, b: Bt)
    ensures Eq(a, b) == Neg(Xor(a, b))
  {
  }

  /** Neg, And, Xor and Eq never claim a concrete value that some instance of their inputs contradicts. */
  lemma {:induction false} ScalarOpsSound(a: Bt, b: Bt, x: Bt, y: Bt)
    requires IsConcrete(x) && IsConcrete(y) && Covers(a, x) && Covers(b, y)
    ensures Covers(Neg(a), Neg(x))
    ensures Covers(And(a, b), And(x, y))
    ensures Covers(Xor(a, b), Xor(x, y))
    ensures Covers(Eq(a, b), Eq(x, y))
  {
  }

  /** Or(UNDEFINED, ZERO) is ZERO although UNDEFINED may stand for ONE, and ONE | ZERO is ONE. */
  lemma {:induction false} OrUnsoundAtUndefinedZero()
    ensures Covers(UNDEFINED, ONE) && Covers(ZERO, ZERO)
    ensures !Covers(Or(UNDEFINED, ZERO), Or(ONE, ZERO))
  {
  }

  // ---------------------------------------------------------------------------
  // One-bit adders and subtractor
  // ---------------------------------------------------------------------------

  /** Half adder (present in the source but not used by it). */
  function AddHalf(a: Bt, b: Bt): (r: BitResult)
    ensures IsConcrete(a) && IsConcrete(b) ==>
      IsConcrete(r.bit) && IsConcrete(r.carry) && BitValue(r.bit) + 2 * BitValue(r.carry) == BitValue(a) + BitValue(b)
    ensures a == UNDEFINED || b == UNDEFINED ==> r.bit == UNDEFINED
    ensures a != UNDEFINED && b != UNDEFINED && (a == KNOWN || b == KNOWN) ==> r.bit == KNOWN
  {
    match a
    case ZERO =>
      (match b
       case ZERO => BitResult(ZERO, ZERO)
       case ONE => BitResult(ONE, ZERO)
       case KNOWN => BitResult(KNOWN, ZERO)
       case UNDEFINED => BitResult(UNDEFINED, ZERO))
    case ONE =>
      (match b
       case ZERO => BitResult(ONE, ZERO)
       case ONE => BitResult(ZERO, ONE)
       case KNOWN => BitResult(KNOWN, KNOWN)
       case UNDEFINED => BitResult(UNDEFINED, UNDEFINED))
    case KNOWN =>
      (match b
       case ZERO => BitResult(KNOWN, ZERO)
       case ONE => BitResult(KNOWN, KNOWN)
       case KNOWN => BitResult(KNOWN, KNOWN)
       case UNDEFINED => BitResult(UNDEFINED, UNDEFINED))
    case UNDEFINED => BitResult(UNDEFINED, UNDEFINED)
  }

  /**
   * Full adder: sum and carry of x + b + carry. The table has entries only for
   * ZERO/ONE/UNDEFINED inputs, and not for all of those; every other combination
   * (in particular any KNOWN input) falls through to (UNDEFINED, UNDEFINED).
   */
  function AddFull(x: Bt, b: Bt, carry: Bt): (r: BitResult)
    ensures IsConcrete(x) && IsConcrete(b) && IsConcrete(carry) ==>
      IsConcrete(r.bit) && IsConcrete(r.carry) &&
      BitValue(r.bit) + 2 * BitValue(r.carry) == BitValue(x) + BitValue(b) + BitValue(carry)
    ensures x == UNDEFINED || b == UNDEFINED || carry == UNDEFINED ==> r.bit == UNDEFINED
    ensures x == KNOWN || b == KNOWN || carry == KNOWN ==> r == BitResult(UNDEFINED, UNDEFINED)
  {
    if x == ZERO && b == ZERO && carry == ZERO then BitResult(ZERO, ZERO)
    else if x == ZERO && b == ZERO && carry == ONE then BitResult(ONE, ZERO)
    else if x == ZERO && b == ONE && carry == ZERO then BitResult(ONE, ZERO)
    else if x == ZERO && b == ONE && carry == ONE then BitResult(ZERO, ONE)

    else if x == ONE && b == ZERO && carry == ZERO then BitResult(ONE, ZERO)
    else if x == ONE && b == ZERO && carry == ONE then BitResult(ZERO, ONE)
    else if x == ONE && b == ONE && carry == ZERO then BitResult(ZERO, ONE)
    else if x == ONE && b == ONE && carry == ONE then BitResult(ONE, ONE)

    else if x == ZERO && b == ZERO && carry == UNDEFINED then BitResult(UNDEFINED, ZERO)
    else if x == ZERO && b == UNDEFINED && carry == ZERO then BitResult(UNDEFINED, ZERO)
    else if x == ZERO && b == UNDEFINED && carry == UNDEFINED then BitResult(UNDEFINED, UNDEFINED)

    else if x == UNDEFINED && b == ZERO && carry == UNDEFINED then BitResult(UNDEFINED, UNDEFINED)
    else if x == UNDEFINED && b == UNDEFINED && carry == ZERO then BitResult(UNDEFINED, UNDEFINED)
    else if x == UNDEFINED && b == UNDEFINED && carry == UNDEFINED then BitResult(UNDEFINED, UNDEFINED)

    else if x == ONE && b == ONE && carry == UNDEFINED then BitResult(UNDEFINED, ONE)
    else if x == ONE && b == UNDEFINED && carry == ONE then BitResult(UNDEFINED, ONE)
    else if x == ONE && b == UNDEFINED && carry == UNDEFINED then BitResult(UNDEFINED, UNDEFINED)

    else if x == UNDEFINED && b == ONE && carry == UNDEFINED then BitResult(UNDEFINED, UNDEFINED)
    else if x == UNDEFINED && b == UNDEFINED && carry == ONE then BitResult(UNDEFINED, UNDEFINED)

    else BitResult(UNDEFINED, UNDEFINED)
  }

  /**
   * Full subtractor: diff and borrow out of x - y - borrow (note the argument order,
   * borrow first, as in the source). All 64 combinations have an entry.
   */
  function SubFull(borrow: Bt, y: Bt, x: Bt): (r: BitResult)
    ensures IsConcrete(borrow) && IsConcrete(y) && IsConcrete(x) ==>
      IsConcrete(r.bit) && IsConcrete(r.carry) &&
      BitValue(r.bit) - 2 * BitValue(r.carry) == BitValue(x) - BitValue(y) - BitValue(borrow)
    ensures borrow == UNDEFINED || y == UNDEFINED || x == UNDEFINED ==> r.bit == UNDEFINED
    ensures borrow != UNDEFINED && y != UNDEFINED && x != UNDEFINED && (borrow == KNOWN || y == KNOWN || x == KNOWN) ==>
      r.bit == KNOWN
  {
    if borrow == ZERO && y == ZERO && x == ZERO then BitResult(ZERO, ZERO)
    else if borrow == ZERO && y == ZERO && x == ONE then BitResult(ONE, ZERO)
    else if borrow == ZERO && y == ZERO && x == KNOWN then BitResult(KNOWN, ZERO)
    else if borrow == ZERO && y == ZERO && x == UNDEFINED then BitResult(UNDEFINED, ZERO)

    else if borrow == ZERO && y == ONE && x == ZERO then BitResult(ONE, ONE)
    else if borrow == ZERO && y == ONE && x == ONE then BitResult(ZERO, ZERO)
    else if borrow == ZERO && y == ONE && x == KNOWN then BitResult(KNOWN, KNOWN)
    else if borrow == ZERO && y == ONE && x == UNDEFINED then BitResult(UNDEFINED, UNDEFINED)

    else if borrow == ZERO && y == KNOWN && x == ZERO then BitResult(KNOWN, KNOWN)
    else if borrow == ZERO && y == KNOWN && x == ONE then BitResult(KNOWN, ZERO)
    else if borrow == ZERO && y == KNOWN && x == KNOWN then BitResult(KNOWN, KNOWN)
    else if borrow == ZERO && y == KNOWN && x == UNDEFINED then BitResult(UNDEFINED, UNDEFINED)

    else if borrow == ZERO && y == UNDEFINED && x == ZERO then BitResult(UNDEFINED, UNDEFINED)
    else if borrow == ZERO && y == UNDEFINED && x == ONE then BitResult(UNDEFINED, ZERO)
    else if borrow == ZERO && y == UNDEFINED && x == KNOWN then BitResult(UNDEFINED, UNDEFINED)
    else if borrow == ZERO && y == UNDEFINED && x == UNDEFINED then BitResult(UNDEFINED, UNDEFINED)

    else if borrow == ONE && y == ZERO && x == ZERO then BitResult(ONE, ONE)
    else if borrow == ONE && y == ZERO && x == ONE then BitResult(ZERO, ZERO)
    else if borrow == ONE && y == ZERO && x == KNOWN then BitResult(KNOWN, KNOWN)
    else if borrow == ONE && y == ZERO && x == UNDEFINED then BitResult(UNDEFINED, UNDEFINED)

    else if borrow == ONE && y == ONE && x == ZERO then BitResult(ZERO, ONE)
    else if borrow == ONE && y == ONE && x == ONE then BitResult(ONE, ONE)
    else if borrow == ONE && y == ONE && x == KNOWN then BitResult(KNOWN, ONE)
    else if borrow == ONE && y == ONE && x == UNDEFINED then BitResult(UNDEFINED, ONE)

    else if borrow == ONE && y == KNOWN && x == ZERO then BitResult(KNOWN, ONE)
    else if borrow == ONE && y == KNOWN && x == ONE then BitResult(KNOWN, KNOWN)
    else if borrow == ONE && y == KNOWN && x == KNOWN then BitResult(KNOWN, KNOWN)
    else if borrow == ONE && y == KNOWN && x == UNDEFINED then BitResult(UNDEFINED, UNDEFINED)

    else if borrow == ONE && y == UNDEFINED && x == ZERO then BitResult(UNDEFINED, ONE)
    else if borrow == ONE && y == UNDEFINED && x == ONE then BitResult(UNDEFINED, UNDEFINED)
    else if borrow == ONE && y == UNDEFINED && x == KNOWN then BitResult(UNDEFINED, UNDEFINED)
    else if borrow == ONE && y == UNDEFINED && x == UNDEFINED then BitResult(UNDEFINED, UNDEFINED)

    else if borrow == KNOWN && y == ZERO && x == ZERO then BitResult(KNOWN, KNOWN)
    else if borrow == KNOWN && y == ZERO && x == ONE then BitResult(KNOWN, ZERO)
    else if borrow == KNOWN && y == ZERO && x == KNOWN then BitResult(KNOWN, KNOWN)
    else if borrow == KNOWN && y == ZERO && x == UNDEFINED then BitResult(UNDEFINED, UNDEFINED)

    else if borrow == KNOWN && y == ONE && x == ZERO then BitResult(KNOWN, ONE)
    else if borrow == KNOWN && y == ONE && x == ONE then BitResult(KNOWN, KNOWN)
    else if borrow == KNOWN && y == ONE && x == KNOWN then BitResult(KNOWN, KNOWN)
    else if borrow == KNOWN && y == ONE && x == UNDEFINED then BitResult(UNDEFINED, UNDEFINED)

    else if borrow == KNOWN && y == KNOWN && x == ZERO then BitResult(KNOWN, ONE)
    else if borrow == KNOWN && y == KNOWN && x == ONE then BitResult(KNOWN, KNOWN)
    else if borrow == KNOWN && y == KNOWN && x == KNOWN then BitResult(KNOWN, KNOWN)
    else if borrow == KNOWN && y == KNOWN && x == UNDEFINED then BitResult(UNDEFINED, UNDEFINED)

    else if borrow == KNOWN && y == UNDEFINED && x == ZERO then BitResult(UNDEFINED, UNDEFINED)
    else if borrow == KNOWN && y == UNDEFINED && x == ONE then BitResult(UNDEFINED, UNDEFINED)
    else if borrow == KNOWN && y == UNDEFINED && x == KNOWN then BitResult(UNDEFINED, UNDEFINED)
    else if borrow == KNOWN && y == UNDEFINED && x == UNDEFINED then BitResult(UNDEFINED, UNDEFINED)

    else if borrow == UNDEFINED && y == ZERO && x == ZERO then BitResult(UNDEFINED, UNDEFINED)
    else if borrow == UNDEFINED && y == ZERO && x == ONE then BitResult(UNDEFINED, ZERO)
    else if borrow == UNDEFINED && y == ZERO && x == KNOWN then BitResult(UNDEFINED, UNDEFINED)
    else if borrow == UNDEFINED && y == ZERO && x == UNDEFINED then BitResult(UNDEFINED, UNDEFINED)

    else if borrow == UNDEFINED && y == ONE && x == ZERO then BitResult(UNDEFINED, ONE)
    else if borrow == UNDEFINED && y == ONE && x == ONE then BitResult(UNDEFINED, UNDEFINED)
    else if borrow == UNDEFINED && y == ONE && x == KNOWN then BitResult(UNDEFINED, UNDEFINED)
    else if borrow == UNDEFINED && y == ONE && x == UNDEFINED then BitResult(UNDEFINED, UNDEFINED)

    else if borrow == UNDEFINED && y == KNOWN && x == ZERO then BitResult(UNDEFINED, UNDEFINED)
    else if borrow == UNDEFINED && y == KNOWN && x == ONE then BitResult(UNDEFINED, UNDEFINED)
    else if borrow == UNDEFINED && y == KNOWN && x == KNOWN then BitResult(UNDEFINED, UNDEFINED)
    else if borrow == UNDEFINED && y == KNOWN && x == UNDEFINED then BitResult(UNDEFINED, UNDEFINED)

    else if borrow == UNDEFINED && y == UNDEFINED && x == ZERO then BitResult(UNDEFINED, UNDEFINED)
    else if borrow == UNDEFINED && y == UNDEFINED && x == ONE then BitResult(UNDEFINED, UNDEFINED)
    else if borrow == UNDEFINED && y == UNDEFINED && x == KNOWN then BitResult(UNDEFINED, UNDEFINED)
    else if borrow == UNDEFINED && y == UNDEFINED && x == UNDEFINED then BitResult(UNDEFINED, UNDEFINED)

    else BitResult(UNDEFINED, UNDEFINED)
  }

  /**
   * Overflow flag of an addition from the two operand sign bits and the result sign
   * bit: UNDEFINED beats KNOWN beats a concrete answer, and the concrete answer is ONE
   * exactly for the sign triples (1, 1, 0) and (0, 0, 1).
   */
  function CalcOverflow(sign1: Bt, sign2: Bt, c: Bt): (r: Bt)
    ensures r == UNDEFINED <==> sign1 == UNDEFINED || sign2 == UNDEFINED || c == UNDEFINED
    ensures r == KNOWN <==> (sign1 == KNOWN || sign2 == KNOWN || c == KNOWN) &&
                            sign1 != UNDEFINED && sign2 != UNDEFINED && c != UNDEFINED
    ensures IsConcrete(sign1) && IsConcrete(sign2) && IsConcrete(c) ==>
      IsConcrete(r) && (r == ONE <==> sign1 == sign2 && c != sign1)
  {
    if sign1 == UNDEFINED then UNDEFINED
    else if sign2 == UNDEFINED then UNDEFINED
    else if c == UNDEFINED then UNDEFINED
    else if sign1 == KNOWN then KNOWN
    else if sign2 == KNOWN then KNOWN
    else if c == KNOWN then KNOWN
    else if sign1 == ONE && sign2 == ONE && c == ZERO then ONE
    else if sign1 == ZERO && sign2 == ZERO && c == ONE then ONE
    else ZERO
  }

  /** Whatever concrete bits the inputs stand for, the half and full adder's outputs cover the true sum and carry. */
  lemma {:induction false} AddersSound(a: Bt, b: Bt, c: Bt, x: Bt, y: Bt, z: Bt)
    requires IsConcrete(x) && IsConcrete(y) && IsConcrete(z) && Covers(a, x) && Covers(b, y) && Covers(c, z)
    ensures Covers(AddHalf(a, b).bit, AddHalf(x, y).bit) && Covers(AddHalf(a, b).carry, AddHalf(x, y).carry)
    ensures Covers(AddFull(a, b, c).bit, AddFull(x, y, z).bit) && Covers(AddFull(a, b, c).carry, AddFull(x, y, z).carry)
  {
  }

  /** The subtractor's difference is always sound, and so is its borrow except for one entry (SubFullBorrowUnsound). */
  lemma {:induction false} SubFullSound(borrow: Bt, y: Bt, x: Bt, bi: Bt, yi: Bt, xi: Bt)
    requires IsConcrete(bi) && IsConcrete(yi) && IsConcrete(xi) && Covers(borrow, bi) && Covers(y, yi) && Covers(x, xi)
    ensures Covers(SubFull(borrow, y, x).bit, SubFull(bi, yi, xi).bit)
    ensures !(borrow == KNOWN && y == KNOWN && x == ZERO) ==> Covers(SubFull(borrow, y, x).carry, SubFull(bi, yi, xi).carry)
  {
  }

  /** SubFull(KNOWN, KNOWN, ZERO) claims a borrow of ONE, but 0 - 0 - 0 borrows nothing. */
  lemma {:induction false} SubFullBorrowUnsound()
    ensures Covers(KNOWN, ZERO)
    ensures SubFull(KNOWN, KNOWN, ZERO).carry == ONE && SubFull(ZERO, ZERO, ZERO).carry == ZERO
  {
  }

  // ---------------------------------------------------------------------------
  // Bit-vectors as numbers
  // ---------------------------------------------------------------------------

  function Pow2(n: nat): (r: nat)
    ensures r >= 1
  {
    if n == 0 then 1 else 2 * Pow2(n - 1)
  }

  /** The weight p carried by a bit: p for ONE, nothing otherwise. */
  function Weight(b: Bt, p: nat): nat {
    if b == ONE then p else 0
  }

  lemma {:induction false} Pow2Succ(n: nat)
    ensures Pow2(n + 1) == 2 * Pow2(n)
  {
  }

  /** Doubling the place value doubles a bit's weight. */
  lemma {:induction false} WeightDouble(x: Bt, p: nat)
    ensures Weight(x, 2 * p) == 2 * Weight(x, p)
  {
  }

  predicate AllConcrete(s: seq<Bt>) {
    forall i :: 0 <= i < |s| ==> IsConcrete(s[i])
  }

  /** Unsigned value of a bit-vector, index 0 least significant; meaningful on concrete vectors. */
  function Value(s: seq<Bt>): nat {
    if |s| == 0 then 0 else Value(s[..|s| - 1]) + Weight(s[|s| - 1], Pow2(|s| - 1))
  }

  /** Two's-complement value of a bit-vector of length at least one; meaningful on concrete vectors. */
  function SignedValue(s: seq<Bt>): int
    requires |s| >= 1
  {
    Value(s) - Weight(s[|s| - 1], Pow2(|s|))
  }

  lemma {:induction false} ValueBound(s: seq<Bt>)
    requires AllConcrete(s)
    ensures Value(s) < Pow2(|s|)
  {
    if |s| > 0 {
      ValueBound(s[..|s| - 1]);
    }
  }

  /** Value read from the least-significant end. */
  lemma {:induction false} ValueCons(x: Bt, s: seq<Bt>)
    requires IsConcrete(x) && AllConcrete(s)
    ensures AllConcrete([x] + s)
    ensures Value([x] + s) == BitValue(x) + 2 * Value(s)
  {
    var t := [x] + s;
    if |s| > 0 {
      var n := |s| - 1;
      assert t[..|t| - 1] == [x] + s[..n];
      ValueCons(x, s[..n]);
      calc {
        Value(t);
        Value([x] + s[..n]) + Weight(s[n], Pow2(|s|));
        BitValue(x) + 2 * Value(s[..n]) + 2 * Weight(s[n], Pow2(n));
        BitValue(x) + 2 * (Value(s[..n]) + Weight(s[n], Pow2(n)));
      }
    } else {
      assert t[..|t| - 1] == [];
    }
  }

  /** Value of a vector extended at the most-significant end. */
  lemma {:induction false} ValueSnoc(s: seq<Bt>, x: Bt)
    requires AllConcrete(s) && IsConcrete(x)
    ensures AllConcrete(s + [x])
    ensures Value(s + [x]) == Value(s) + Weight(x, Pow2(|s|))
  {
    assert (s + [x])[..|s|] == s;
  }

  function Zeros(n: nat): (r: seq<Bt>)
    ensures |r| == n && AllConcrete(r)
  {
    seq(n, _ => ZERO)
  }

  lemma {:induction false} ZerosValue(n: nat)
    ensures Value(Zeros(n)) == 0
  {
    if n > 0 {
      assert Zeros(n)[..n - 1] == Zeros(n - 1);
      ZerosValue(n - 1);
    }
  }

  // ---------------------------------------------------------------------------
  // Bitwise vector operations
  // ---------------------------------------------------------------------------

  /** Applies a one-bit operation at every position. */
  function Map(op: Bt -> Bt, s: seq<Bt>): (r: seq<Bt>)
    ensures |r| == |s| && forall i :: 0 <= i < |s| ==> r[i] == op(s[i])
  {
    seq(|s|, i requires 0 <= i < |s| => op(s[i]))
  }

  /** Applies a two-bit operation at every position of two equal-length vectors. */
  function Zip(op: (Bt, Bt) -> Bt, a: seq<Bt>, b: seq<Bt>): (r: seq<Bt>)
    requires |a| == |b|
    ensures |r| == |a| && forall i :: 0 <= i < |a| ==> r[i] == op(a[i], b[i])
  {
    seq(|a|, i requires 0 <= i < |a| => op(a[i], b[i]))
  }

  method Not(a: array<Bt>) returns (r: array<Bt>)
    ensures fresh(r)
    ensures r[..] == Map(Neg, a[..])
  {
    r := new Bt[a.Length];
    for i := 0 to a.Length
      invariant forall j :: 0 <= j < i ==> r[j] == Neg(a[j])
    {
      r[i] := Neg(a[i]);
    }
  }

  method AndVec(a: array<Bt>, b: array<Bt>) returns (r: array<Bt>)
    requires a.Length == b.Length
    ensures fresh(r)
    ensures r[..] == Zip(And, a[..], b[..])
  {
    r := new Bt[a.Length];
    for i := 0 to a.Length
      invariant forall j :: 0 <= j < i ==> r[j] == And(a[j], b[j])
    {
      r[i] := And(a[i], b[i]);
    }
  }

  method OrVec(a: array<Bt>, b: array<Bt>) returns (r: array<Bt>)
    requires a.Length == b.Length
    ensures fresh(r)
    ensures r[..] == Zip(Or, a[..], b[..])
  {
    r := new Bt[a.Length];
    for i := 0 to a.Length
      invariant forall j :: 0 <= j < i ==> r[j] == Or(a[j], b[j])
    {
      r[i] := Or(a[i], b[i]);
    }
  }

  method XorVec(a: array<Bt>, b: array<Bt>) returns (r: array<Bt>)
    requires a.Length == b.Length
    ensures fresh(r)
    ensures r[..] == Zip(Xor, a[..], b[..])
  {
    r := new Bt[a.Length];
    for i := 0 to a.Length
      invariant forall j :: 0 <= j < i ==> r[j] == Xor(a[j], b[j])
    {
      r[i] := Xor(a[i], b[i]);
    }
  }

  method EqBitwise(a: array<Bt>, b: array<Bt>) returns (r: array<Bt>)
    requires a.Length == b.Length
    ensures fresh(r)
    ensures r[..] == Zip(Eq, a[..], b[..])
  {
    r := new Bt[a.Length];
    for i := 0 to a.Length
      invariant forall j :: 0 <= j < i ==> r[j] == Eq(a[j], b[j])
    {
      r[i] := Eq(a[i], b[i]);
    }
  }

  lemma {:induction false} NotInvolution(s: seq<Bt>)
    ensures Map(Neg, Map(Neg, s)) == s
  {
    forall i | 0 <= i < |s| {
      NegInvolution(s[i]);
    }
  }

  lemma {:induction false} BitwiseCommutative(a: seq<Bt>, b: seq<Bt>)
    requires |a| == |b|
    ensures Zip(And, a, b) == Zip(And, b, a)
    ensures Zip(Xor, a, b) == Zip(Xor, b, a)
    ensures Zip(Eq, a, b) == Zip(Eq, b, a)
  {
    forall i | 0 <= i < |a|
      ensures And(a[i], b[i]) == And(b[i], a[i]) && Xor(a[i], b[i]) == Xor(b[i], a[i])
    {
      AndCommutative(a[i], b[i]);
      XorCommutative(a[i], b[i]);
    }
  }

  lemma {:induction false} EqBitwiseIsNotXor(a: seq<Bt>, b: seq<Bt>)
    requires |a| == |b|
    ensures Zip(Eq, a, b) == Map(Neg, Zip(Xor, a, b))
  {
    forall i | 0 <= i < |a| {
      EqIsNegXor(a[i], b[i]);
    }
  }

  /**
   * Whole-vector equality: UNDEFINED if some position compares UNDEFINED, else KNOWN
   * if some position compares KNOWN, else ZERO if some position differs, else ONE.
   */
  function EqReduce(a: seq<Bt>, b: seq<Bt>): Bt
    requires |a| == |b|
  {
    if exists i :: 0 <= i < |a| && Eq(a[i], b[i]) == UNDEFINED then UNDEFINED
    else if exists i :: 0 <= i < |a| && Eq(a[i], b[i]) == KNOWN then KNOWN
    else if exists i :: 0 <= i < |a| && Eq(a[i], b[i]) == ZERO then ZERO
    else ONE
  }

  method EqVec(a: array<Bt>, b: array<Bt>) returns (r: Bt)
    requires a.Length == b.Length
    ensures r == EqReduce(a[..], b[..])
  {
    var existsZero := false;
    var existsKnown := false;
    for i := 0 to a.Length
      invariant forall j :: 0 <= j < i ==> Eq(a[j], b[j]) != UNDEFINED
      invariant existsZero <==> exists j :: 0 <= j < i && Eq(a[j], b[j]) == ZERO
      invariant existsKnown <==> exists j :: 0 <= j < i && Eq(a[j], b[j]) == KNOWN
    {
      match Eq(a[i], b[i])
      case ZERO => existsZero := true;
      case ONE =>
      case UNDEFINED =>
        assert a[..][i] == a[i] && b[..][i] == b[i];
        return UNDEFINED;
      case KNOWN => existsKnown := true;
    }
    if existsKnown {
      return KNOWN;
    }
    if existsZero {
      return ZERO;
    }
    return ONE;
  }

  /** On concrete vectors the reducing equality is ONE exactly when the vectors are equal, ZERO otherwise. */
  lemma {:induction false} EqReduceConcrete(a: seq<Bt>, b: seq<Bt>)
    requires |a| == |b| && AllConcrete(a) && AllConcrete(b)
    ensures EqReduce(a, b) == ONE <==> a == b
    ensures EqReduce(a, b) == ZERO <==> a != b
  {
    if a != b {
      var i :| 0 <= i < |a| && a[i] != b[i];
      assert Eq(a[i], b[i]) == ZERO;
    }
  }

  // ---------------------------------------------------------------------------
  // One-bit shifts; each also returns the bit shifted out (the carry)
  // ---------------------------------------------------------------------------

  /** Logical shift right by one: toward index 0, ZERO enters at the top. */
  function ShrBits(s: seq<Bt>): (r: seq<Bt>)
    requires |s| >= 1
    ensures |r| == |s|
  {
    s[1..] + [ZERO]
  }

  /** Arithmetic shift right by one: as ShrBits, but the top bit keeps its old value. */
  function SarBits(s: seq<Bt>): (r: seq<Bt>)
    requires |s| >= 2
    ensures |r| == |s|
  {
    s[1..] + [s[|s| - 1]]
  }

  /** Shift left by one: toward the top, ZERO enters at index 0. */
  function ShlBits(s: seq<Bt>): (r: seq<Bt>)
    requires |s| >= 1
    ensures |r| == |s|
  {
    [ZERO] + s[..|s| - 1]
  }

  method Shr1(a: array<Bt>) returns (r: array<Bt>, carry: Bt)
    requires a.Length >= 1
    ensures fresh(r)
    ensures r[..] == ShrBits(a[..]) && carry == a[0]
  {
    r := new Bt[a.Length];
    carry := a[0];
    for i := 1 to a.Length
      invariant forall j :: 1 <= j < i ==> r[j - 1] == a[j]
    {
      r[i - 1] := a[i];
    }
    r[a.Length - 1] := ZERO;
  }

  method Sar1(a: array<Bt>) returns (r: array<Bt>, carry: Bt)
    requires a.Length >= 2
    ensures fresh(r)
    ensures r[..] == SarBits(a[..]) && carry == a[0]
  {
    r := new Bt[a.Length];
    carry := a[0];
    for i := 1 to a.Length
      invariant forall j :: 1 <= j < i ==> r[j - 1] == a[j]
    {
      r[i - 1] := a[i];
    }
    r[a.Length - 1] := r[a.Length - 2];
  }

  method Shl1(a: array<Bt>) returns (r: array<Bt>, carry: Bt)
    requires a.Length >= 1
    ensures fresh(r)
    ensures r[..] == ShlBits(a[..]) && carry == a[a.Length - 1]
  {
    r := new Bt[a.Length];
    r[0] := ZERO;
    for i := 0 to a.Length - 1
      invariant r[0] == ZERO
      invariant forall j :: 0 <= j < i ==> r[j + 1] == a[j]
    {
      r[i + 1] := a[i];
    }
    carry := a[a.Length - 1];
  }

  /** Arithmetic shift left is the same operation as logical shift left. */
  method Sal1(a: array<Bt>) returns (r: array<Bt>, carry: Bt)
    requires a.Length >= 1
    ensures fresh(r)
    ensures r[..] == ShlBits(a[..]) && carry == a[a.Length - 1]
  {
    r, carry := Shl1(a);
  }

  /** Shifting left then right gives back the vector with its top bit, shifted out and back in, as ZERO. */
  lemma {:induction false} ShiftRoundTrip(s: seq<Bt>)
    requires |s| >= 1
    ensures ShrBits(ShlBits(s)) == s[..|s| - 1] + [ZERO]
    ensures ShlBits(ShrBits(s)) == [ZERO] + s[1..]
  {
  }

  /** Shr1 halves the unsigned value, rounding down; the carry is the remainder. */
  lemma {:induction false} ShrValue(s: seq<Bt>)
    requires |s| >= 1 && AllConcrete(s)
    ensures AllConcrete(ShrBits(s))
    ensures Value(s) == 2 * Value(ShrBits(s)) + BitValue(s[0])
  {
    var t := s[1..];
    ValueCons(s[0], t);
    assert [s[0]] + t == s;
    ValueSnoc(t, ZERO);
    assert Value(t + [ZERO]) == Value(t);
  }

  /** Shl1 doubles the unsigned value modulo 2^n; the carry is the bit that falls off. */
  lemma {:induction false} ShlValue(s: seq<Bt>)
    requires |s| >= 1 && AllConcrete(s)
    ensures AllConcrete(ShlBits(s))
    ensures Value(ShlBits(s)) + Weight(s[|s| - 1], Pow2(|s|)) == 2 * Value(s)
  {
    var n := |s| - 1;
    var s' := s[..n];
    assert ShlBits(s) == [ZERO] + s';
    ValueCons(ZERO, s');
    assert s' + [s[n]] == s;
    ValueSnoc(s', s[n]);
    Pow2Succ(n);
    WeightDouble(s[n], Pow2(n));
  }

  /** Sar1 halves the two's-complement value, rounding toward minus infinity. */
  lemma {:induction false} SarValue(s: seq<Bt>)
    requires |s| >= 2 && AllConcrete(s)
    ensures AllConcrete(SarBits(s))
    ensures SignedValue(s) == 2 * SignedValue(SarBits(s)) + BitValue(s[0])
  {
    var n := |s|;
    var t := s[1..];
    var top := s[n - 1];
    assert s == [s[0]] + t;
    ValueCons(s[0], t);
    ValueSnoc(t, top);
    assert SarBits(s) == t + [top];
    assert t[|t| - 1] == top;
    assert Pow2(n) == 2 * Pow2(n - 1);
  }

  // ---------------------------------------------------------------------------
  // Ripple addition and subtraction
  // ---------------------------------------------------------------------------

  datatype ArithOp = Addition | Subtraction

  /** Bits produced by a ripple and the carry (or borrow) left after the last position. */
  datatype Ripple = Ripple(bits: seq<Bt>, carry: Bt)

  /** The one-bit cell used at every position: the full adder, or the full subtractor computing x - y. */
  function Cell(op: ArithOp, x: Bt, y: Bt, carry: Bt): BitResult {
    match op
    case Addition => AddFull(x, y, carry)
    case Subtraction => SubFull(carry, y, x)
  }

  /** Runs the cell over positions 0 .. |a| - 1, threading the carry upward from c. */
  function RippleOf(op: ArithOp, a: seq<Bt>, b: seq<Bt>, c: Bt): (r: Ripple)
    requires |a| == |b|
    ensures |r.bits| == |a|
    decreases |a|
  {
    if |a| == 0 then Ripple([], c)
    else
      var n := |a| - 1;
      var p := RippleOf(op, a[..n], b[..n], c);
      var t := Cell(op, a[n], b[n], p.carry);
      Ripple(p.bits + [t.bit], t.carry)
  }

  /** The auxiliary flag: the carry left after position 3, UNDEFINED for vectors shorter than 4. */
  function NibbleCarry(op: ArithOp, a: seq<Bt>, b: seq<Bt>, c: Bt): Bt
    requires |a| == |b|
  {
    if |a| >= 4 then RippleOf(op, a[..4], b[..4], c).carry else UNDEFINED
  }

  lemma {:induction false} RippleStep(op: ArithOp, a: seq<Bt>, b: seq<Bt>, c: Bt, i: nat)
    requires |a| == |b| && i < |a|
    ensures var p := RippleOf(op, a[..i], b[..i], c);
            var t := Cell(op, a[i], b[i], p.carry);
            RippleOf(op, a[..i + 1], b[..i + 1], c) == Ripple(p.bits + [t.bit], t.carry)
  {
    assert a[..i + 1][..i] == a[..i];
    assert b[..i + 1][..i] == b[..i];
  }

  /** The loop shared by Add and Sub: ripple the cell over a and b, snapshotting the carry after position 3. */
  method RippleLoop(op: ArithOp, a: array<Bt>, b: array<Bt>, cfIn: Bt) returns (r: array<Bt>, cf: Bt, of: Bt, af: Bt)
    requires a.Length == b.Length && a.Length >= 1
    ensures fresh(r)
    ensures r[..] == RippleOf(op, a[..], b[..], cfIn).bits
    ensures cf == RippleOf(op, a[..], b[..], cfIn).carry
    ensures af == NibbleCarry(op, a[..], b[..], cfIn)
    ensures of == CalcOverflow(a[a.Length - 1], b[b.Length - 1], r[r.Length - 1])
  {
    r, cf, af := RippleFill(op, a, b, cfIn);
    of := CalcOverflow(a[a.Length - 1], b[b.Length - 1], r[r.Length - 1]);
  }

  /** The positions of the shared loop, first to last, into a fresh array. */
  method RippleFill(op: ArithOp, a: array<Bt>, b: array<Bt>, cfIn: Bt) returns (r: array<Bt>, cf: Bt, af: Bt)
    requires a.Length == b.Length
    ensures fresh(r)
    ensures r[..] == RippleOf(op, a[..], b[..], cfIn).bits
    ensures cf == RippleOf(op, a[..], b[..], cfIn).carry
    ensures af == NibbleCarry(op, a[..], b[..], cfIn)
  {
    var length := a.Length;
    r := new Bt[length];
    cf := cfIn;
    af := UNDEFINED;
    ghost var sa, sb := a[..], b[..];
    for i := 0 to length
      invariant r[..i] == RippleOf(op, sa[..i], sb[..i], cfIn).bits
      invariant cf == RippleOf(op, sa[..i], sb[..i], cfIn).carry
      invariant i < 4 ==> af == UNDEFINED
      invariant i >= 4 ==> af == RippleOf(op, sa[..4], sb[..4], cfIn).carry
    {
      RippleStep(op, sa, sb, cfIn, i);
      var t := Cell(op, a[i], b[i], cf);
      ghost var done := r[..i];
      r[i] := t.bit;
      assert r[..i + 1] == done + [t.bit];
      cf := t.carry;
      if i == 3 {
        af := cf;
      }
    }
    assert sa[..length] == sa && sb[..length] == sb && r[..length] == r[..];
  }

  /** Vector addition with carry in; returns the sum, CF, OF and AF. */
  method Add(a: array<Bt>, b: array<Bt>, cfIn: Bt) returns (r: array<Bt>, cf: Bt, of: Bt, af: Bt)
    requires a.Length == b.Length && a.Length >= 1
    ensures fresh(r)
    ensures r[..] == RippleOf(Addition, a[..], b[..], cfIn).bits
    ensures cf == RippleOf(Addition, a[..], b[..], cfIn).carry
    ensures af == NibbleCarry(Addition, a[..], b[..], cfIn)
    ensures of == CalcOverflow(a[a.Length - 1], b[b.Length - 1], r[r.Length - 1])
  {
    r, cf, of, af := RippleLoop(Addition, a, b, cfIn);
  }

  /**
   * Vector subtraction a - b with borrow in; returns the difference, CF (the borrow),
   * OF and AF. OF uses the addition rule CalcOverflow(sign a, sign b, sign r).
   */
  method Sub(a: array<Bt>, b: array<Bt>, cfIn: Bt) returns (r: array<Bt>, cf: Bt, of: Bt, af: Bt)
    requires a.Length == b.Length && a.Length >= 1
    ensures fresh(r)
    ensures r[..] == RippleOf(Subtraction, a[..], b[..], cfIn).bits
    ensures cf == RippleOf(Subtraction, a[..], b[..], cfIn).carry
    ensures af == NibbleCarry(Subtraction, a[..], b[..], cfIn)
    ensures of == CalcOverflow(a[a.Length - 1], b[b.Length - 1], r[r.Length - 1])
  {
    r, cf, of, af := RippleLoop(Subtraction, a, b, cfIn);
  }

  /** Two's-complement negation: 0 - a. */
  method NegVec(a: array<Bt>) returns (r: array<Bt>, cf: Bt, of: Bt, af: Bt)
    requires a.Length >= 1
    ensures fresh(r)
    ensures r[..] == RippleOf(Subtraction, Zeros(a.Length), a[..], ZERO).bits
    ensures cf == RippleOf(Subtraction, Zeros(a.Length), a[..], ZERO).carry
    ensures af == NibbleCarry(Subtraction, Zeros(a.Length), a[..], ZERO)
    ensures of == CalcOverflow(ZERO, a[a.Length - 1], r[r.Length - 1])
  {
    var zero := new Bt[a.Length];
    for i := 0 to a.Length
      invariant forall j :: 0 <= j < i ==> zero[j] == ZERO
    {
      zero[i] := ZERO;
    }
    assert zero[..] == Zeros(a.Length);
    r, cf, of, af := Sub(zero, a, ZERO);
  }


  // ---------------------------------------------------------------------------
  // What the ripples compute on concrete vectors
  // ---------------------------------------------------------------------------

  /** The full adder at place value p: sum weight plus carry weight (at 2p) equal the three input weights. */
  lemma {:induction false} AddCellWeights(x: Bt, y: Bt, c: Bt, p: nat)
    requires IsConcrete(x) && IsConcrete(y) && IsConcrete(c)
    ensures var t := AddFull(x, y, c);
            IsConcrete(t.bit) && IsConcrete(t.carry) &&
            Weight(t.bit, p) + Weight(t.carry, 2 * p) == Weight(x, p) + Weight(y, p) + Weight(c, p)
  {
  }

  /** The full subtractor at place value p: difference weight minus borrow weight (at 2p) equal x - y - borrow. */
  lemma {:induction false} SubCellWeights(x: Bt, y: Bt, c: Bt, p: nat)
    requires IsConcrete(x) && IsConcrete(y) && IsConcrete(c)
    ensures var t := SubFull(c, y, x);
            IsConcrete(t.bit) && IsConcrete(t.carry) &&
            Weight(t.bit, p) - Weight(t.carry, 2 * p) == Weight(x, p) - Weight(y, p) - Weight(c, p)
  {
  }

  /** Ripple addition is exact: sum bits plus the carry-out's weight equal a + b + carry-in. */
  lemma {:induction false} AddRippleValue(a: seq<Bt>, b: seq<Bt>, c: Bt)
    requires |a| == |b| && AllConcrete(a) && AllConcrete(b) && IsConcrete(c)
    ensures var r := RippleOf(Addition, a, b, c);
            AllConcrete(r.bits) && IsConcrete(r.carry) &&
            Value(r.bits) + Weight(r.carry, Pow2(|a|)) == Value(a) + Value(b) + BitValue(c)
  {
    if |a| > 0 {
      var n := |a| - 1;
      var a', b' := a[..n], b[..n];
      AddRippleValue(a', b', c);
      var p := RippleOf(Addition, a', b', c);
      var t := AddFull(a[n], b[n], p.carry);
      assert RippleOf(Addition, a, b, c) == Ripple(p.bits + [t.bit], t.carry);
      AddCellWeights(a[n], b[n], p.carry, Pow2(n));
      ValueSnoc(p.bits, t.bit);
      Pow2Succ(n);
    }
  }

  /** Ripple subtraction is exact: difference bits minus the borrow-out's weight equal a - b - borrow-in. */
  lemma {:induction false} SubRippleValue(a: seq<Bt>, b: seq<Bt>, c: Bt)
    requires |a| == |b| && AllConcrete(a) && AllConcrete(b) && IsConcrete(c)
    ensures var r := RippleOf(Subtraction, a, b, c);
            AllConcrete(r.bits) && IsConcrete(r.carry) &&
            Value(r.bits) - Weight(r.carry, Pow2(|a|)) == Value(a) - Value(b) - BitValue(c)
  {
    if |a| > 0 {
      var n := |a| - 1;
      var a', b' := a[..n], b[..n];
      SubRippleValue(a', b', c);
      var p := RippleOf(Subtraction, a', b', c);
      var t := SubFull(p.carry, b[n], a[n]);
      assert RippleOf(Subtraction, a, b, c) == Ripple(p.bits + [t.bit], t.carry);
      SubCellWeights(a[n], b[n], p.carry, Pow2(n));
      ValueSnoc(p.bits, t.bit);
      Pow2Succ(n);
    }
  }

  /** An n-bit result v plus a carry of weight m: v is the total modulo m, and the carry is set exactly when the total reaches m. */
  lemma {:induction false} WrapAbove(total: int, v: int, m: int, carry: bool)
    requires 0 <= v < m && total == v + (if carry then m else 0)
    ensures total % m == v && (carry <==> total >= m)
  {
    if carry {
      assert total == m * 1 + v;
    }
  }

  /** An n-bit result v minus a borrow of weight m: v is the total modulo m, and the borrow is set exactly when the total is negative. */
  lemma {:induction false} WrapBelow(total: int, v: int, m: int, borrow: bool)
    requires 0 <= v < m && total == v - (if borrow then m else 0)
    ensures total % m == v && (borrow <==> total < 0)
  {
    if borrow {
      assert total == m * (-1) + v;
    }
  }

  /**
   * On concrete inputs Add computes (a + b + cin) mod 2^n, with CF = ONE exactly when
   * the unsigned sum does not fit in n bits.
   */
  lemma {:induction false} AddUnsigned(a: seq<Bt>, b: seq<Bt>, c: Bt)
    requires |a| == |b| && AllConcrete(a) && AllConcrete(b) && IsConcrete(c)
    ensures var r := RippleOf(Addition, a, b, c);
            var total := Value(a) + Value(b) + BitValue(c);
            AllConcrete(r.bits) &&
            Value(r.bits) == total % Pow2(|a|) &&
            (r.carry == ONE <==> total >= Pow2(|a|))
  {
    var r := RippleOf(Addition, a, b, c);
    AddRippleValue(a, b, c);
    ValueBound(r.bits);
    var v, m := Value(r.bits), Pow2(|a|);
    WrapAbove(Value(a) + Value(b) + BitValue(c), v, m, r.carry == ONE);
  }

  /**
   * On concrete inputs Sub computes (a - b - bin) mod 2^n, with CF = ONE exactly when
   * a < b + bin.
   */
  lemma {:induction false} SubUnsigned(a: seq<Bt>, b: seq<Bt>, c: Bt)
    requires |a| == |b| && AllConcrete(a) && AllConcrete(b) && IsConcrete(c)
    ensures var r := RippleOf(Subtraction, a, b, c);
            var total := Value(a) - Value(b) - BitValue(c);
            AllConcrete(r.bits) &&
            Value(r.bits) == total % Pow2(|a|) &&
            (r.carry == ONE <==> total < 0)
  {
    var r := RippleOf(Subtraction, a, b, c);
    SubRippleValue(a, b, c);
    ValueBound(r.bits);
    var v, m := Value(r.bits), Pow2(|a|);
    WrapBelow(Value(a) - Value(b) - BitValue(c), v, m, r.carry == ONE);
  }

  /**
   * The auxiliary flag of Add on concrete inputs: ONE exactly when the low four bits
   * and the carry-in sum to 16 or more; UNDEFINED for vectors shorter than four bits.
   */
  lemma {:induction false} AddNibbleCarry(a: seq<Bt>, b: seq<Bt>, c: Bt)
    requires |a| == |b| && AllConcrete(a) && AllConcrete(b) && IsConcrete(c)
    ensures |a| < 4 ==> NibbleCarry(Addition, a, b, c) == UNDEFINED
    ensures |a| >= 4 ==>
      (NibbleCarry(Addition, a, b, c) == ONE <==> Value(a[..4]) + Value(b[..4]) + BitValue(c) >= 16)
  {
    if |a| >= 4 {
      var a4, b4 := a[..4], b[..4];
      AddRippleValue(a4, b4, c);
      ValueBound(RippleOf(Addition, a4, b4, c).bits);
      assert Pow2(4) == 16;
    }
  }

  /**
   * The auxiliary flag of Sub on concrete inputs: ONE exactly when the low four bits
   * of a are below those of b plus the borrow-in; UNDEFINED below four bits.
   */
  lemma {:induction false} SubNibbleBorrow(a: seq<Bt>, b: seq<Bt>, c: Bt)
    requires |a| == |b| && AllConcrete(a) && AllConcrete(b) && IsConcrete(c)
    ensures |a| < 4 ==> NibbleCarry(Subtraction, a, b, c) == UNDEFINED
    ensures |a| >= 4 ==>
      (NibbleCarry(Subtraction, a, b, c) == ONE <==> Value(a[..4]) < Value(b[..4]) + BitValue(c))
  {
    if |a| >= 4 {
      var a4, b4 := a[..4], b[..4];
      SubRippleValue(a4, b4, c);
      ValueBound(RippleOf(Subtraction, a4, b4, c).bits);
      assert Pow2(4) == 16;
    }
  }

  /** Negation of a concrete vector gives -a mod 2^n, with CF = ONE exactly when a is not zero. */
  lemma {:induction false} NegUnsigned(a: seq<Bt>)
    requires AllConcrete(a)
    ensures var r := RippleOf(Subtraction, Zeros(|a|), a, ZERO);
            AllConcrete(r.bits) &&
            Value(r.bits) == (0 - Value(a)) % Pow2(|a|) &&
            (r.carry == ONE <==> Value(a) != 0)
  {
    SubUnsigned(Zeros(|a|), a, ZERO);
    ZerosValue(|a|);
  }

  /** The signed range of n-bit two's complement: -2^(n-1) <= v < 2^(n-1). */
  predicate InSignedRange(v: int, n: nat)
    requires n >= 1
  {
    -(Pow2(n - 1) as int) <= v < Pow2(n - 1)
  }

  /**
   * The top cell of an addition: with v the value of the lower bits (below h) and the
   * carry into the top, the signed sum leaves [-h, h) exactly when CalcOverflow says so.
   */
  lemma {:induction false} AddTopOverflow(x: Bt, y: Bt, c: Bt, v: int, h: nat)
    requires IsConcrete(x) && IsConcrete(y) && IsConcrete(c) && 0 <= v < h
    ensures var s := v + Weight(c, h) - Weight(x, h) - Weight(y, h);
            CalcOverflow(x, y, AddFull(x, y, c).bit) == ONE <==> !(-(h as int) <= s < h)
  {
  }

  /**
   * The top cell of a subtraction: the addition rule applied to x, y and the difference
   * bit never reports overflow while the signed difference is out of [-h, h).
   */
  lemma {:induction false} SubTopOverflow(x: Bt, y: Bt, c: Bt, v: int, h: nat)
    requires IsConcrete(x) && IsConcrete(y) && IsConcrete(c) && 0 <= v < h
    ensures var s := v - Weight(c, h) - Weight(x, h) + Weight(y, h);
            var of := CalcOverflow(x, y, SubFull(c, y, x).bit);
            IsConcrete(of) && (of == ONE ==> -(h as int) <= s < h)
  {
  }

  /**
   * Add's overflow flag is two's-complement overflow: on concrete inputs it is ONE
   * exactly when a + b + cin, read as signed numbers, falls outside the n-bit range.
   */
  lemma {:induction false} AddOverflowIsSignedOverflow(a: seq<Bt>, b: seq<Bt>, c: Bt)
    requires |a| == |b| && |a| >= 1 && AllConcrete(a) && AllConcrete(b) && IsConcrete(c)
    ensures var r := RippleOf(Addition, a, b, c);
            var n := |a|;
            AllConcrete(r.bits) &&
            (CalcOverflow(a[n - 1], b[n - 1], r.bits[n - 1]) == ONE <==>
             !InSignedRange(SignedValue(a) + SignedValue(b) + BitValue(c), n))
  {
    var m := |a| - 1;
    var a', b', h := a[..m], b[..m], Pow2(m);
    AddRippleValue(a', b', c);
    var p := RippleOf(Addition, a', b', c);
    ValueBound(p.bits);
    var t := AddFull(a[m], b[m], p.carry);
    assert RippleOf(Addition, a, b, c) == Ripple(p.bits + [t.bit], t.carry);
    ValueSnoc(p.bits, t.bit);
    Pow2Succ(m);
    WeightDouble(a[m], h);
    WeightDouble(b[m], h);
    assert SignedValue(a) + SignedValue(b) + BitValue(c) ==
      Value(p.bits) + Weight(p.carry, h) - Weight(a[m], h) - Weight(b[m], h);
    AddTopOverflow(a[m], b[m], p.carry, Value(p.bits), h);
  }

  /**
   * Sub reuses the addition overflow rule: on concrete inputs its OF is ONE only when
   * the signed result a - b - bin is in range, and is ZERO whenever it is out of range.
   */
  lemma {:induction false} SubOverflowUsesAdditionRule(a: seq<Bt>, b: seq<Bt>, c: Bt)
    requires |a| == |b| && |a| >= 1 && AllConcrete(a) && AllConcrete(b) && IsConcrete(c)
    ensures var r := RippleOf(Subtraction, a, b, c);
            var n := |a|;
            var s := SignedValue(a) - SignedValue(b) - BitValue(c);
            var of := CalcOverflow(a[n - 1], b[n - 1], r.bits[n - 1]);
            AllConcrete(r.bits) &&
            (of == ONE ==> InSignedRange(s, n)) &&
            (!InSignedRange(s, n) ==> of == ZERO)
  {
    var m := |a| - 1;
    var a', b', h := a[..m], b[..m], Pow2(m);
    SubRippleValue(a', b', c);
    var p := RippleOf(Subtraction, a', b', c);
    ValueBound(p.bits);
    var t := SubFull(p.carry, b[m], a[m]);
    assert RippleOf(Subtraction, a, b, c) == Ripple(p.bits + [t.bit], t.carry);
    ValueSnoc(p.bits, t.bit);
    Pow2Succ(m);
    WeightDouble(a[m], h);
    WeightDouble(b[m], h);
    assert SignedValue(a) - SignedValue(b) - BitValue(c) ==
      Value(p.bits) - Weight(p.carry, h) - Weight(a[m], h) + Weight(b[m], h);
    SubTopOverflow(a[m], b[m], p.carry, Value(p.bits), h);
  }

  /** Four-bit witness: 0 - (-8) = 8 does not fit in four signed bits, yet Sub's OF is ZERO. */
  lemma {:induction false} SubOverflowMissed()
    ensures var a := [ZERO, ZERO, ZERO, ZERO];
            var b := [ZERO, ZERO, ZERO, ONE];
            var r := RippleOf(Subtraction, a, b, ZERO);
            AllConcrete(a) && AllConcrete(b) &&
            SignedValue(a) - SignedValue(b) == 8 && !InSignedRange(8, 4) &&
            r.bits == [ZERO, ZERO, ZERO, ONE] &&
            CalcOverflow(a[3], b[3], r.bits[3]) == ZERO
  {
    MissedRipple();
    MissedValues();
    assert Pow2(3) == 8;
  }

  /** Extending both operands by one bit runs one more cell on top of the shorter ripple. */
  lemma {:induction false} RippleSnoc(op: ArithOp, a: seq<Bt>, b: seq<Bt>, c: Bt, x: Bt, y: Bt)
    requires |a| == |b|
    ensures var p := RippleOf(op, a, b, c);
            var t := Cell(op, x, y, p.carry);
            RippleOf(op, a + [x], b + [y], c) == Ripple(p.bits + [t.bit], t.carry)
  {
    assert (a + [x])[..|a|] == a && (b + [y])[..|b|] == b;
  }

  /** The low bits of the SubOverflowMissed witness: 000 - 000 leaves 000 and no borrow. */
  lemma {:induction false} MissedRippleLow()
    ensures RippleOf(Subtraction, [ZERO, ZERO, ZERO], [ZERO, ZERO, ZERO], ZERO) == Ripple([ZERO, ZERO, ZERO], ZERO)
  {
    var z := ZERO;
    assert Cell(Subtraction, z, z, z) == BitResult(z, z);
    RippleSnoc(Subtraction, [], [], z, z, z);
    assert [] + [z] == [z];
    RippleSnoc(Subtraction, [z], [z], z, z, z);
    assert [z] + [z] == [z, z];
    RippleSnoc(Subtraction, [z, z], [z, z], z, z, z);
    assert [z, z] + [z] == [z, z, z];
  }

  /** The ripple of the SubOverflowMissed witness, 0000 - 1000, bit by bit. */
  lemma {:induction false} MissedRipple()
    ensures RippleOf(Subtraction, [ZERO, ZERO, ZERO, ZERO], [ZERO, ZERO, ZERO, ONE], ZERO) ==
            Ripple([ZERO, ZERO, ZERO, ONE], ONE)
  {
    var z := ZERO;
    MissedRippleLow();
    assert Cell(Subtraction, z, ONE, z) == BitResult(ONE, ONE);
    RippleSnoc(Subtraction, [z, z, z], [z, z, z], z, z, ONE);
    assert [z, z, z] + [z] == [z, z, z, z] && [z, z, z] + [ONE] == [z, z, z, ONE];
  }

  /** The signed values of the SubOverflowMissed witness: 0 and -8. */
  lemma {:induction false} MissedValues()
    ensures AllConcrete([ZERO, ZERO, ZERO, ZERO]) && AllConcrete([ZERO, ZERO, ZERO, ONE])
    ensures SignedValue([ZERO, ZERO, ZERO, ZERO]) == 0 && SignedValue([ZERO, ZERO, ZERO, ONE]) == -8
  {
    var z := ZERO;
    ZerosValue(3);
    ZerosValue(4);
    assert Zeros(3) == [z, z, z] && Zeros(4) == [z, z, z, z];
    ValueSnoc([z, z, z], ONE);
    assert [z, z, z] + [ONE] == [z, z, z, ONE];
    assert Pow2(3) == 8 && Pow2(4) == 16;
  }

  /** Position-wise covering survives appending one more covering bit. */
  lemma {:induction false} CoversSnoc(s: seq<Bt>, t: seq<Bt>, x: Bt, y: Bt)
    requires |s| == |t| && AllConcrete(t) && IsConcrete(y)
    requires forall i :: 0 <= i < |s| ==> Covers(s[i], t[i])
    requires Covers(x, y)
    ensures AllConcrete(t + [y])
    ensures forall i :: 0 <= i < |s| + 1 ==> Covers((s + [x])[i], (t + [y])[i])
  {
  }

  /**
   * Addition over the four-valued bits is sound: whenever every input bit covers a
   * concrete bit, every bit of the abstract sum and its carry cover the concrete sum's.
   */
  lemma {:induction false} AddRippleSound(a: seq<Bt>, b: seq<Bt>, c: Bt, x: seq<Bt>, y: seq<Bt>, z: Bt)
    requires |a| == |b| == |x| == |y| && AllConcrete(x) && AllConcrete(y) && IsConcrete(z)
    requires forall i :: 0 <= i < |a| ==> Covers(a[i], x[i]) && Covers(b[i], y[i])
    requires Covers(c, z)
    ensures var r, q := RippleOf(Addition, a, b, c), RippleOf(Addition, x, y, z);
            AllConcrete(q.bits) && IsConcrete(q.carry) &&
            (forall i :: 0 <= i < |a| ==> Covers(r.bits[i], q.bits[i])) &&
            Covers(r.carry, q.carry)
  {
    if |a| > 0 {
      var n := |a| - 1;
      AddRippleSound(a[..n], b[..n], c, x[..n], y[..n], z);
      var p, pq := RippleOf(Addition, a[..n], b[..n], c), RippleOf(Addition, x[..n], y[..n], z);
      var t, tq := AddFull(a[n], b[n], p.carry), AddFull(x[n], y[n], pq.carry);
      assert RippleOf(Addition, a, b, c) == Ripple(p.bits + [t.bit], t.carry);
      assert RippleOf(Addition, x, y, z) == Ripple(pq.bits + [tq.bit], tq.carry);
      AddersSound(a[n], b[n], p.carry, x[n], y[n], pq.carry);
      CoversSnoc(p.bits, pq.bits, t.bit, tq.bit);
    }
  }

  // ---------------------------------------------------------------------------
  // Adding a single bit in place (add_one_bit)
  // ---------------------------------------------------------------------------

  /**
   * One position of the increment: the bit there and the bit still to add give the new
   * bit and what is still to add above it. With nothing (ZERO) still to add the bit is
   * kept; with ONE, KNOWN or UNDEFINED still to add, an UNDEFINED on either side makes
   * both UNDEFINED and otherwise a KNOWN on either side makes both KNOWN.
   */
  function IncStep(x: Bt, toAdd: Bt): (r: BitResult)
    ensures IsConcrete(x) && IsConcrete(toAdd) ==>
      IsConcrete(r.bit) && IsConcrete(r.carry) &&
      BitValue(r.bit) + 2 * BitValue(r.carry) == BitValue(x) + BitValue(toAdd)
  {
    match toAdd
    case ZERO => BitResult(x, ZERO)
    case ONE =>
      (match x
       case ZERO => BitResult(ONE, ZERO)
       case ONE => BitResult(ZERO, ONE)
       case KNOWN => BitResult(KNOWN, KNOWN)
       case UNDEFINED => BitResult(UNDEFINED, UNDEFINED))
    case KNOWN => if x == UNDEFINED then BitResult(UNDEFINED, UNDEFINED) else BitResult(KNOWN, KNOWN)
    case UNDEFINED => BitResult(UNDEFINED, UNDEFINED)
  }

  /** IncStep is sound: its result covers the concrete result for every pair of concrete bits it covers. */
  lemma {:induction false} IncStepSound(x: Bt, t: Bt, xi: Bt, ti: Bt)
    requires IsConcrete(xi) && IsConcrete(ti) && Covers(x, xi) && Covers(t, ti)
    ensures Covers(IncStep(x, t).bit, IncStep(xi, ti).bit) && Covers(IncStep(x, t).carry, IncStep(xi, ti).carry)
  {
  }

  /** Runs IncStep over positions 0 .. |s| - 1, starting with b still to add. */
  function IncRipple(s: seq<Bt>, b: Bt): (r: Ripple)
    ensures |r.bits| == |s|
  {
    if |s| == 0 then Ripple([], b)
    else
      var n := |s| - 1;
      var p := IncRipple(s[..n], b);
      var t := IncStep(s[n], p.carry);
      Ripple(p.bits + [t.bit], t.carry)
  }

  /** What is still to add after position 3, UNDEFINED for vectors shorter than 4. */
  function IncNibble(s: seq<Bt>, b: Bt): Bt {
    if |s| >= 4 then IncRipple(s[..4], b).carry else UNDEFINED
  }

  lemma {:induction false} IncRippleStep(s: seq<Bt>, b: Bt, i: nat)
    requires i < |s|
    ensures var p := IncRipple(s[..i], b);
            var t := IncStep(s[i], p.carry);
            IncRipple(s[..i + 1], b) == Ripple(p.bits + [t.bit], t.carry)
  {
    assert s[..i + 1][..i] == s[..i];
  }

  /** One step of the in-place increment, on the whole contents: done bits, then the untouched rest. */
  lemma {:induction false} IncInPlaceStep(s: seq<Bt>, b: Bt, i: nat)
    requires i < |s|
    ensures var p := IncRipple(s[..i], b);
            var t := IncStep(s[i], p.carry);
            (p.bits + s[i..])[i] == s[i] &&
            (p.bits + s[i..])[i := t.bit] == IncRipple(s[..i + 1], b).bits + s[i + 1..] &&
            t.carry == IncRipple(s[..i + 1], b).carry
  {
    IncRippleStep(s, b, i);
    var p := IncRipple(s[..i], b);
    var t := IncStep(s[i], p.carry);
    assert (p.bits + s[i..])[i := t.bit] == (p.bits + [t.bit]) + s[i + 1..];
  }

  /**
   * Adds the bit b to a in place. CF is what is still to add after the top position,
   * AF what is still to add after position 3, and OF compares the sign bit before and after.
   */
  method AddOneBit(a: array<Bt>, b: Bt) returns (cf: Bt, of: Bt, af: Bt)
    requires a.Length >= 1
    modifies a
    ensures a[..] == IncRipple(old(a[..]), b).bits
    ensures cf == IncRipple(old(a[..]), b).carry
    ensures af == IncNibble(old(a[..]), b)
    ensures of == CalcOverflow(old(a[a.Length - 1]), ZERO, a[a.Length - 1])
  {
    ghost var s := a[..];
    af := UNDEFINED;
    var signBitBefore := a[a.Length - 1];
    var toAdd := b;
    for i := 0 to a.Length
      invariant a[..] == IncRipple(s[..i], b).bits + s[i..]
      invariant toAdd == IncRipple(s[..i], b).carry
      invariant i < 4 ==> af == UNDEFINED
      invariant i >= 4 ==> af == IncRipple(s[..4], b).carry
    {
      IncInPlaceStep(s, b, i);
      assert a[i] == s[i];
      var t := IncStep(a[i], toAdd);
      a[i] := t.bit;
      toAdd := t.carry;
      if i == 3 {
        af := toAdd;
      }
    }
    assert s[..a.Length] == s && IncRipple(s, b).bits + s[a.Length..] == IncRipple(s, b).bits;
    cf := toAdd;
    of := CalcOverflow(signBitBefore, ZERO, a[a.Length - 1]);
  }

  /** Adding ZERO changes nothing and leaves nothing to carry. */
  lemma {:induction false} IncZero(s: seq<Bt>)
    ensures IncRipple(s, ZERO) == Ripple(s, ZERO)
  {
    if |s| > 0 {
      var n := |s| - 1;
      IncZero(s[..n]);
      assert IncStep(s[n], ZERO) == BitResult(s[n], ZERO);
      assert s[..n] + [s[n]] == s;
    }
  }

  /**
   * Once what is still to add has become UNDEFINED (after the first i positions), every
   * higher bit and the final carry are UNDEFINED.
   */
  lemma {:induction false} IncUndefinedFrom(s: seq<Bt>, b: Bt, i: nat)
    requires i <= |s| && IncRipple(s[..i], b).carry == UNDEFINED
    ensures var r := IncRipple(s, b);
            r.carry == UNDEFINED && forall j | i <= j < |s| :: r.bits[j] == UNDEFINED
  {
    if |s| == i {
      assert s[..i] == s;
    } else {
      var n := |s| - 1;
      assert s[..n][..i] == s[..i];
      IncUndefinedFrom(s[..n], b, i);
      var p := IncRipple(s[..n], b);
      var t := IncStep(s[n], p.carry);
      assert t.bit == UNDEFINED && t.carry == UNDEFINED;
      assert IncRipple(s, b) == Ripple(p.bits + [t.bit], t.carry);
      forall j | i <= j < |s| ensures (p.bits + [t.bit])[j] == UNDEFINED {
        if j < n {
          assert (p.bits + [t.bit])[j] == p.bits[j];
        }
      }
    }
  }

  /** Adding UNDEFINED makes every bit and the carry UNDEFINED. */
  lemma {:induction false} IncUndefined(s: seq<Bt>)
    ensures var r := IncRipple(s, UNDEFINED);
            r.carry == UNDEFINED && forall i :: 0 <= i < |s| ==> r.bits[i] == UNDEFINED
  {
    assert s[..0] == [];
    IncUndefinedFrom(s, UNDEFINED, 0);
  }

  /** One increment position at place value p: new bit weight plus carry weight (at 2p) equal x + toAdd. */
  lemma {:induction false} IncCellWeights(x: Bt, c: Bt, p: nat)
    requires IsConcrete(x) && IsConcrete(c)
    ensures var t := IncStep(x, c);
            IsConcrete(t.bit) && IsConcrete(t.carry) &&
            Weight(t.bit, p) + Weight(t.carry, 2 * p) == Weight(x, p) + Weight(c, p)
  {
  }

  /** On concrete bits the increment is exact: the new bits plus the carry's weight are s + b. */
  lemma {:induction false} IncRippleValue(s: seq<Bt>, b: Bt)
    requires AllConcrete(s) && IsConcrete(b)
    ensures var r := IncRipple(s, b);
            AllConcrete(r.bits) && IsConcrete(r.carry) &&
            Value(r.bits) + Weight(r.carry, Pow2(|s|)) == Value(s) + BitValue(b)
  {
    if |s| > 0 {
      var n := |s| - 1;
      var s' := s[..n];
      IncRippleValue(s', b);
      var p := IncRipple(s', b);
      var t := IncStep(s[n], p.carry);
      assert IncRipple(s, b) == Ripple(p.bits + [t.bit], t.carry);
      IncCellWeights(s[n], p.carry, Pow2(n));
      ValueSnoc(p.bits, t.bit);
      Pow2Succ(n);
    }
  }

  /** Consequently the increment is s + b modulo 2^n, carrying out exactly when that wraps. */
  lemma {:induction false} IncUnsigned(s: seq<Bt>, b: Bt)
    requires AllConcrete(s) && IsConcrete(b)
    ensures var r := IncRipple(s, b);
            AllConcrete(r.bits) &&
            Value(r.bits) == (Value(s) + BitValue(b)) % Pow2(|s|) &&
            (r.carry == ONE <==> Value(s) + BitValue(b) == Pow2(|s|))
  {
    var r := IncRipple(s, b);
    IncRippleValue(s, b);
    ValueBound(r.bits);
    ValueBound(s);
    var v, m := Value(r.bits), Pow2(|s|);
    WrapAbove(Value(s) + BitValue(b), v, m, r.carry == ONE);
  }

  /** The increment over four-valued bits covers the concrete increment of any vector it covers. */
  lemma {:induction false} IncSound(s: seq<Bt>, b: Bt, x: seq<Bt>, y: Bt)
    requires |s| == |x| && AllConcrete(x) && IsConcrete(y) && Covers(b, y)
    requires forall i :: 0 <= i < |s| ==> Covers(s[i], x[i])
    ensures var r, q := IncRipple(s, b), IncRipple(x, y);
            AllConcrete(q.bits) && IsConcrete(q.carry) &&
            (forall i :: 0 <= i < |s| ==> Covers(r.bits[i], q.bits[i])) &&
            Covers(r.carry, q.carry)
  {
    IncRippleValue(x, y);
    if |s| > 0 {
      var n := |s| - 1;
      IncSound(s[..n], b, x[..n], y);
      var p, pq := IncRipple(s[..n], b), IncRipple(x[..n], y);
      IncStepSound(s[n], p.carry, x[n], pq.carry);
      CoversSnoc(p.bits, pq.bits, IncStep(s[n], p.carry).bit, IncStep(x[n], pq.carry).bit);
    }
  }
}
