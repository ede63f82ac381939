/** Growable heap buffers, as malloc and realloc provide them. Allocation is assumed to
    succeed. */
module Memory {

  /** The realloc of a buffer of `a.Length` slots to `size` slots: the old contents are
      kept, the new slots hold `fill`. */
  method Realloc<T>(a: array<T>, size: nat, fill: T) returns (b: array<T>)
    requires a.Length <= size
    ensures fresh(b) && b.Length == size
    ensures forall k :: 0 <= k < a.Length ==> b[k] == a[k]
  {
    b := new T[size](_ => fill);
    forall k | 0 <= k < a.Length {
      b[k] := a[k];
    }
  }
}
