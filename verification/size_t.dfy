/** Unsigned machine arithmetic of a 64-bit `size_t`, used where the vault
    computes a byte count or a capacity. Everything else in the model uses
    unbounded naturals. */
module SizeT {

  /** Largest value of a 64-bit `size_t`. */
  const SizeMax: nat := 0xFFFF_FFFF_FFFF_FFFF

  /** Number of distinct `size_t` values; unsigned arithmetic is modulo this. */
  const SizeModulus: nat := SizeMax + 1

  /** An unbounded result reduced to `size_t`, as C++ unsigned arithmetic does. */
  function Wrap(n: nat): (r: nat)
    ensures r <= SizeMax
    ensures n <= SizeMax ==> r == n
    ensures (n - r) % SizeModulus == 0
  {
    n % SizeModulus
  }

  /** Whether a buffer of `slots` elements of `elemSize` bytes each has a byte
      size that `size_t` can represent. */
  predicate BufferFits(slots: nat, elemSize: nat)
  {
    slots * elemSize <= SizeMax
  }

  /** The byte count the vault passes to `malloc` for `slots` elements: the
      product `slots * sizeof(T)` evaluated in `size_t`. */
  function RequestBytes(slots: nat, elemSize: nat): (r: nat)
    ensures r <= SizeMax
    ensures BufferFits(slots, elemSize) <==> r == slots * elemSize
  {
    Wrap(slots * elemSize)
  }
}
