/** `LayerMaskExtensions.Contains`: is a game object on one of the layers a mask selects? */
module LayerMasks {
  import opened Wrappers

  /** Unity keeps `GameObject.layer` within 0..31. */
  type Layer = k: bv32 | k < 32

  datatype GameObject = GameObject(layer: Layer)

  /** A `LayerMask` converts to a 32-bit int; the bit test is blind to its sign. */
  type LayerMask = bv32

  /** A null object (`None`) is on no layer; otherwise the source's bit test on its layer. */
  function Contains(mask: LayerMask, gob: Option<GameObject>): (r: bool)
    ensures gob.None? ==> !r
  {
    if gob.None? then false
    else LayerBit(mask, gob.value.layer)
  }

  /** The source's bit test: the mask, masked with a one shifted up to bit `k`, is not zero. */
  function LayerBit(mask: LayerMask, k: Layer): bool {
    Meets(mask, 1 << k)
  }

  /** The mask shares a set bit with `b`. */
  predicate Meets(mask: LayerMask, b: LayerMask) {
    0 != mask & b
  }

  /** Bit `k` of the mask, read by shifting the mask down by `k`. */
  predicate BitSet(mask: LayerMask, k: Layer) {
    (mask >> k) & 1 == 1
  }

  /** Masking with a one shifted up to `k` reads the same bit as shifting the mask down by `k`. */
  lemma LayerBitReadsShift(mask: LayerMask, k: Layer)
    ensures LayerBit(mask, k) <==> BitSet(mask, k)
  {
  }

  /** An object is in the mask exactly when it is not null and the mask's bit for its layer is set. */
  lemma ContainsReadsLayerBit(mask: LayerMask, gob: Option<GameObject>)
    ensures Contains(mask, gob) <==> gob.Some? && BitSet(mask, gob.value.layer)
  {
    if gob.Some? {
      var k := gob.value.layer;
      LayerBitReadsShift(mask, k);
      assert Contains(mask, gob) == LayerBit(mask, k);
    } else {
      assert !Contains(mask, gob);
    }
  }

  /** The empty mask (Unity's "Nothing") contains no object. */
  lemma EmptyMaskContainsNothing(gob: Option<GameObject>)
    ensures !Contains(0, gob)
  {
  }

  lemma MeetsOrBits(m1: LayerMask, m2: LayerMask, b: LayerMask)
    ensures 0 != (m1 | m2) & b <==> 0 != m1 & b || 0 != m2 & b
  {
  }

  /** `m1 | m2` shares a bit with `b` exactly when `m1` or `m2` does. */
  lemma MeetsOr(m1: LayerMask, m2: LayerMask, b: LayerMask)
    ensures Meets(m1 | m2, b) <==> Meets(m1, b) || Meets(m2, b)
  {
    MeetsOrBits(m1, m2, b);
  }

  /** Combining masks with `|` unites the layer sets they select. */
  lemma ContainsDistributesOverOr(m1: LayerMask, m2: LayerMask, gob: Option<GameObject>)
    ensures Contains(m1 | m2, gob) <==> Contains(m1, gob) || Contains(m2, gob)
  {
    if gob.Some? {
      MeetsOr(m1, m2, 1 << gob.value.layer);
    }
  }
}
