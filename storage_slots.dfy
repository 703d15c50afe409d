/** Solidity storage-layout helpers (packages/client/src/utils/storage.ts; an
    identical earlier copy of the four slot helpers lives in
    packages/client/src/utils.ts).

    Slots are unbounded integers, as BigNumber arithmetic is: nothing here wraps
    at 2^256. `keccak` stands for keccak256 of the ABI encoding of a list of
    uint256 words; it is a parameter because the hash is outside the model. */
module StorageSlots {
  import opened Errors

  /** `mapElemSlot`: the key is encoded first and the base slot second. */
  function MapElemSlot(keccak: seq<int> -> int, base: int, key: int): int {
    keccak([key, base])
  }

  function StaticArrayElemSlot(base: int, idx: int, slotsPerElem: int): int {
    base + idx * slotsPerElem
  }

  /** The elements of a dynamic array start at the hash of its base slot. */
  function DynamicArrayElemSlot(keccak: seq<int> -> int, base: int, idx: int, slotsPerElem: int): int {
    keccak([base]) + idx * slotsPerElem
  }

  function StructFieldSlot(base: int, offset: int): int {
    base + offset
  }

  /** `assertSlotValue`: passes exactly when the two values are equal as
      integers, and otherwise fails with SlotValueMismatch carrying the fetched
      value first and the expected value second. */
  function AssertSlotValue(value: int, expected: int): (r: Outcome)
    ensures r.Pass? <==> value == expected
    ensures r.Fail? ==> r.error == SlotValueMismatch(value, expected)
  {
    if value != expected then Fail(SlotValueMismatch(value, expected)) else Pass
  }

  ghost predicate CollisionFree(keccak: seq<int> -> int) {
    forall x, y :: keccak(x) == keccak(y) ==> x == y
  }

  /** Element 0 of a static array sits at the array's base slot, and each next
      element `slotsPerElem` slots further on. */
  lemma StaticArrayStride(base: int, idx: int, k: int)
    ensures StaticArrayElemSlot(base, 0, k) == base
    ensures StaticArrayElemSlot(base, idx + 1, k) == StaticArrayElemSlot(base, idx, k) + k
  {
  }

  /** The slot ranges `[slot(i), slot(i) + k)` of two different elements of a
      static array do not overlap. */
  lemma StaticArrayElementsDisjoint(base: int, i: int, j: int, k: int, oi: int, oj: int)
    requires i != j && 0 <= oi < k && 0 <= oj < k
    ensures StaticArrayElemSlot(base, i, k) + oi != StaticArrayElemSlot(base, j, k) + oj
  {
    if i < j {
      assert (j - i) * k >= k by {
        assert j - i >= 1;
      }
    } else {
      assert (i - j) * k >= k by {
        assert i - j >= 1;
      }
    }
  }

  /** A field at offset `off < k` of element `i` of a static array of structs of
      `k` slots stays inside that element's slot range. */
  lemma StructFieldInsideElement(base: int, i: int, k: int, off: int)
    requires 0 <= off < k
    ensures StaticArrayElemSlot(base, i, k) <= StructFieldSlot(StaticArrayElemSlot(base, i, k), off)
    ensures StructFieldSlot(StaticArrayElemSlot(base, i, k), off) < StaticArrayElemSlot(base, i + 1, k)
  {
  }

  /** The elements of a dynamic array are laid out like a static array whose
      base slot is the hash of the dynamic array's slot. */
  lemma DynamicArrayIsStaticAtHash(keccak: seq<int> -> int, base: int, idx: int, k: int)
    ensures DynamicArrayElemSlot(keccak, base, idx, k) == StaticArrayElemSlot(keccak([base]), idx, k)
    ensures DynamicArrayElemSlot(keccak, base, 0, k) == keccak([base])
  {
  }

  /** With a collision-free hash, two (base, key) pairs share a mapping slot only
      if they are the same pair; the key-first order is what distinguishes
      `mapElemSlot(b, k)` from `mapElemSlot(k, b)`. */
  lemma MapElemSlotInjective(keccak: seq<int> -> int, b1: int, k1: int, b2: int, k2: int)
    requires CollisionFree(keccak)
    ensures MapElemSlot(keccak, b1, k1) == MapElemSlot(keccak, b2, k2) ==> b1 == b2 && k1 == k2
  {
    if MapElemSlot(keccak, b1, k1) == MapElemSlot(keccak, b2, k2) {
      assert [k1, b1] == [k2, b2];
      assert [k1, b1][0] == k1 && [k2, b2][0] == k2;
      assert [k1, b1][1] == b1 && [k2, b2][1] == b2;
    }
  }

  /** With a collision-free hash, a mapping entry's slot is never the first
      element slot of a dynamic array: the two hash inputs differ in length. */
  lemma MapSlotIsNotArrayStart(keccak: seq<int> -> int, b1: int, key: int, b2: int)
    requires CollisionFree(keccak)
    ensures MapElemSlot(keccak, b1, key) != DynamicArrayElemSlot(keccak, b2, 0, 1)
  {
    assert |[key, b1]| != |[b2]|;
  }
}
