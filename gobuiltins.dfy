/** The semantics of the Go built-ins and conversions the byte codecs rely on. */
module GoBuiltins {

  function Min(a: int, b: int): (m: int)
    ensures m <= a && m <= b && (m == a || m == b)
  {
    if a <= b then a else b
  }

  function Max(a: int, b: int): (m: int)
    ensures m >= a && m >= b && (m == a || m == b)
  {
    if a >= b then a else b
  }

  /**
   * Go's `byte(x)` for a signed integer: the low eight bits of the two's-complement value,
   * which is the Euclidean remainder modulo 256, negative `x` included.
   */
  function LowByte(x: int): bv8 {
    (x % 256) as bv8
  }

  /** The frame `s` after Go's `copy(s[lo:hi], src)`, which copies min(hi - lo, |src|) bytes. */
  function Copied(s: seq<bv8>, lo: nat, hi: nat, src: seq<bv8>): (r: seq<bv8>)
    requires lo <= hi <= |s|
    ensures |r| == |s|
    ensures forall k :: lo <= k < lo + Min(hi - lo, |src|) ==> r[k] == src[k - lo]
    ensures forall k :: 0 <= k < |s| && !(lo <= k < lo + Min(hi - lo, |src|)) ==> r[k] == s[k]
  {
    var n := Min(hi - lo, |src|);
    s[..lo] + src[..n] + s[lo + n..]
  }

  /** Go's `copy(a[lo:hi], src)` on a frame held in an array. */
  method CopyInto(a: array<bv8>, lo: nat, hi: nat, src: seq<bv8>)
    requires lo <= hi <= a.Length
    modifies a
    ensures a[..] == Copied(old(a[..]), lo, hi, src)
  {
    var n := Min(hi - lo, |src|);
    forall k | lo <= k < lo + n {
      a[k] := src[k - lo];
    }
  }
}
