/**
 * The packed phase-plus-count word of a generation fence: the low two bits are
 * the phase (0 preparing, 1 current, 2 retired), the rest is the number of
 * admitted activities.
 */
module GenerationWord {

  const PREPARING: bv64 := 0
  const CURRENT: bv64 := 1
  const RETIRED: bv64 := 2

  function Phase(w: bv64): bv64 { w & 3 }

  function Count(w: bv64): bv64 { w >> 2 }

  /** No further activity fits. */
  predicate Full(w: bv64) { w >> 2 == 0x3FFF_FFFF_FFFF_FFFF }

  function Reserve(w: bv64): bv64 { w + 4 }

  function Release(w: bv64): bv64 { w - 4 }

  function Retire(w: bv64): bv64 { (w & !3) | 2 }

  /** The number a bit pattern stands for, by counting down to zero. */
  ghost function Value(b: bv64): nat
    decreases b
  {
    if b == 0 then 0 else 1 + Value(b - 1)
  }

  lemma PhaseOfReserve(w: bv64)
    ensures Phase(Reserve(w)) == Phase(w)
  {
  }

  /** A word is full exactly when one more reservation would wrap around. */
  lemma FullIffWraps(w: bv64)
    ensures Full(w) <==> Reserve(w) < w
  {
    if Full(w) { assert w >= 0xFFFF_FFFF_FFFF_FFFC; }
  }

  lemma ReserveDoesNotOverflow(w: bv64)
    requires !Full(w)
    ensures Reserve(w) > w
  {
  }

  lemma CountBeforeReserve(w: bv64)
    requires !Full(w)
    ensures Count(Reserve(w)) != 0 && Count(Reserve(w)) - 1 == Count(w)
  {
  }

  /** Reserving adds exactly one activity. */
  lemma ReserveAddsOne(w: bv64)
    requires !Full(w)
    ensures Value(Count(Reserve(w))) == Value(Count(w)) + 1
  {
    CountBeforeReserve(w);
  }

  lemma ReleaseBits(w: bv64)
    requires w >> 2 != 0
    ensures (w - 4) >> 2 == (w >> 2) - 1 && (w - 4) & 3 == w & 3
  {
  }

  /** Releasing takes one activity away and keeps the phase. */
  lemma ReleaseTakesOne(w: bv64)
    requires Count(w) != 0
    ensures Phase(Release(w)) == Phase(w)
    ensures Value(Count(Release(w))) + 1 == Value(Count(w))
  {
    ReleaseBits(w);
  }

  lemma RetireKeepsCount(w: bv64)
    ensures Count(Retire(w)) == Count(w) && Phase(Retire(w)) == RETIRED
  {
  }

  /** A word is its phase and its count. */
  lemma WordIsPair(w: bv64, v: bv64)
    requires Phase(w) == Phase(v) && Count(w) == Count(v)
    ensures w == v
  {
  }

  lemma SmallCounts(w: bv64)
    ensures Value(Count(w)) == 0 <==> Count(w) == 0
    ensures Value(Count(w)) == 1 <==> Count(w) == 1
  {
  }
}
