/** Types and small facts that every component of the model uses. */
module Base {

  /** One octet of a byte buffer. */
  newtype uint8 = x: int | 0 <= x < 256

  type Bytes = seq<uint8>

  datatype Option<+T> = None | Some(value: T)

  /** The outcome of a fallible operation. */
  datatype Result<+T, +E> = Ok(value: T) | Err(error: E)

  /** A member's 32-byte identity read as a big-endian number; zero is the invalid identity. */
  type NodeId = nat

  const U32_LIMIT: nat := 0x1_0000_0000
  const U64_LIMIT: nat := 0x1_0000_0000_0000_0000

  /** One more in a 64-bit word, which wraps to zero. */
  function NextWord(n: nat): nat {
    if n + 1 < U64_LIMIT then n + 1 else 0
  }

  /** The low 32 bits of a length. */
  function Low32(n: nat): nat {
    if n < U32_LIMIT then n else Low32(n - U32_LIMIT)
  }

  /** `n` zero bytes. */
  function Zeros(n: nat): (r: Bytes)
    ensures |r| == n
    ensures forall i :: 0 <= i < n ==> r[i] == 0
  {
    seq(n, _ => 0)
  }

  /** Whether every byte is zero. */
  predicate AllZero(s: Bytes) {
    forall i :: 0 <= i < |s| ==> s[i] == 0
  }

  lemma AllZeroIsZeros(s: Bytes)
    requires AllZero(s)
    ensures s == Zeros(|s|)
  {
  }

  /** Every part is `size` bytes long. */
  ghost predicate Sized(parts: seq<Bytes>, size: nat) {
    forall k :: 0 <= k < |parts| ==> |parts[k]| == size
  }

  lemma SubsetIsSmaller<T>(a: set<T>, b: set<T>)
    requires a <= b
    ensures |a| <= |b| && (|a| == |b| ==> a == b)
  {
    assert b == a + (b - a);
  }
}
