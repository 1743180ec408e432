/** Bytes on the wire: little-endian integers, opaque float words and the
    small subset of Python's `struct` formats the MDX decoder uses. */
module Wire {

  newtype byte = x: int | 0 <= x < 256

  type Bytes = seq<byte>

  datatype Option<+T> = None | Some(value: T)

  /** The bytes of an ASCII string, as a 4-byte tag literal such as b'MDLX'. */
  function Ascii(s: string): (b: Bytes)
    requires forall i :: 0 <= i < |s| ==> s[i] < 128 as char
    ensures |b| == |s|
    ensures forall i :: 0 <= i < |s| ==> b[i] as int == s[i] as int
  {
    seq(|s|, i requires 0 <= i < |s| => s[i] as int as byte)
  }

  const TwoTo31: int := 0x8000_0000
  const TwoTo32: int := 0x1_0000_0000

  /** The unsigned value of four little-endian bytes. */
  function U32(b: Bytes): (u: nat)
    requires |b| == 4
    ensures u < TwoTo32
  {
    b[0] as nat + 0x100 * b[1] as nat + 0x1_0000 * b[2] as nat + 0x100_0000 * b[3] as nat
  }

  /** `struct.unpack('<i', b)`: two's-complement 32-bit little-endian. */
  function Int32(b: Bytes): (x: int)
    requires |b| == 4
    ensures -TwoTo31 <= x < TwoTo31
  {
    var u := U32(b);
    if u < TwoTo31 then u else u - TwoTo32
  }

  /** `struct.unpack('<h', b)`: two's-complement 16-bit little-endian. */
  function Int16(b: Bytes): (x: int)
    requires |b| == 2
    ensures -0x8000 <= x < 0x8000
  {
    var u := b[0] as int + 0x100 * b[1] as int;
    if u < 0x8000 then u else u - 0x1_0000
  }

  /** The four little-endian bytes of a 32-bit signed integer. */
  function EncodeInt32(x: int): (b: Bytes)
    requires -TwoTo31 <= x < TwoTo31
    ensures |b| == 4
  {
    var u := if x < 0 then x + TwoTo32 else x;
    [(u % 0x100) as byte, (u / 0x100 % 0x100) as byte,
     (u / 0x1_0000 % 0x100) as byte, (u / 0x100_0000) as byte]
  }

  /** Euclidean division by a power of 256 is determined by quotient and
      remainder. */
  lemma DivModUnique(x: int, d: int, q: int, r: int)
    requires d == 0x100 || d == 0x1_0000 || d == 0x100_0000
    requires 0 <= r < d && x == q * d + r
    ensures x / d == q && x % d == r
  {
    if d == 0x100 {
      assert x == q * 0x100 + r;
    } else if d == 0x1_0000 {
      assert x == q * 0x1_0000 + r;
    } else {
      assert x == q * 0x100_0000 + r;
    }
  }

  /** The bytes of `u` are its base-256 digits. */
  lemma Digits(u: nat, b0: int, b1: int, b2: int, b3: int)
    requires 0 <= b0 < 0x100 && 0 <= b1 < 0x100 && 0 <= b2 < 0x100 && 0 <= b3 < 0x100
    requires u == b0 + 0x100 * b1 + 0x1_0000 * b2 + 0x100_0000 * b3
    ensures u % 0x100 == b0 && u / 0x100 % 0x100 == b1
    ensures u / 0x1_0000 % 0x100 == b2 && u / 0x100_0000 == b3
  {
    DivModUnique(u, 0x100, b1 + 0x100 * b2 + 0x1_0000 * b3, b0);
    DivModUnique(b1 + 0x100 * b2 + 0x1_0000 * b3, 0x100, b2 + 0x100 * b3, b1);
    DivModUnique(u, 0x1_0000, b2 + 0x100 * b3, b0 + 0x100 * b1);
    DivModUnique(b2 + 0x100 * b3, 0x100, b3, b2);
    DivModUnique(u, 0x100_0000, b3, b0 + 0x100 * b1 + 0x1_0000 * b2);
  }

  lemma Int32OfEncode(x: int)
    requires -TwoTo31 <= x < TwoTo31
    ensures Int32(EncodeInt32(x)) == x
  {
    var u := if x < 0 then x + TwoTo32 else x;
    var b0, b1, b2, b3 := u % 0x100, u / 0x100 % 0x100, u / 0x1_0000 % 0x100, u / 0x100_0000;
    DivModUnique(u, 0x100, u / 0x100, b0);
    DivModUnique(u / 0x100, 0x100, u / 0x1_0000, b1);
    DivModUnique(u / 0x1_0000, 0x100, u / 0x100_0000, b2);
    assert u == b0 + 0x100 * b1 + 0x1_0000 * b2 + 0x100_0000 * b3;
    assert U32(EncodeInt32(x)) == u;
  }

  lemma EncodeOfInt32(b: Bytes)
    requires |b| == 4
    ensures EncodeInt32(Int32(b)) == b
  {
    Digits(U32(b), b[0] as int, b[1] as int, b[2] as int, b[3] as int);
  }

  /** The value at `off` of `struct.unpack_from('<i', buf, off)`. */
  function Int32At(buf: Bytes, off: nat): int
    requires off + 4 <= |buf|
  {
    Int32(buf[off..off + 4])
  }

  /** `bool(x & mask)` for a one-bit `mask`, on Python's unbounded two's
      complement integers (Dafny's `/` and `%` floor for a positive divisor). */
  function HasBit(x: int, mask: nat): bool
    requires mask > 0
  {
    x / mask % 2 == 1
  }

  /** `b.rstrip(b'\x00')`. */
  function StripNul(b: Bytes): (r: Bytes)
    ensures |r| <= |b| && r == b[..|r|]
    ensures r == [] || r[|r| - 1] != 0
    ensures forall i :: |r| <= i < |b| ==> b[i] == 0
  {
    if |b| > 0 && b[|b| - 1] == 0 then StripNul(b[..|b| - 1]) else b
  }

  /** The element kinds of the formats the decoder passes to `struct`. */
  datatype ScalarKind = F32 | I32 | I16 | U8

  /** A struct format of `count` elements of one kind: '<3f' is Fmt(F32, 3). */
  datatype Fmt = Fmt(kind: ScalarKind, count: nat)

  /** One unpacked element. Floats are kept as their four raw bytes: the
      decoder does no arithmetic on them. */
  datatype Scalar = Float(bits: Bytes) | Int(v: int)

  function KindSize(k: ScalarKind): (n: nat)
    ensures 1 <= n <= 4
  {
    match k
    case F32 => 4
    case I32 => 4
    case I16 => 2
    case U8 => 1
  }

  /** `struct.calcsize` of a format. */
  function Size(f: Fmt): nat
  {
    f.count * KindSize(f.kind)
  }

  function DecodeScalar(k: ScalarKind, b: Bytes): Scalar
    requires |b| == KindSize(k)
  {
    match k
    case F32 => Float(b)
    case I32 => Int(Int32(b))
    case I16 => Int(Int16(b))
    case U8 => Int(b[0] as int)
  }

  /** Whether `x` is a value an element of kind `k` can hold. */
  predicate Fits(k: ScalarKind, x: Scalar)
  {
    match k
    case F32 => x.Float? && |x.bits| == 4
    case I32 => x.Int? && -TwoTo31 <= x.v < TwoTo31
    case I16 => x.Int? && -0x8000 <= x.v < 0x8000
    case U8 => x.Int? && 0 <= x.v < 0x100
  }

  function EncodeScalar(k: ScalarKind, x: Scalar): (b: Bytes)
    requires Fits(k, x)
    ensures |b| == KindSize(k)
  {
    match k
    case F32 => x.bits
    case I32 => EncodeInt32(x.v)
    case I16 =>
      var u := if x.v < 0 then x.v + 0x1_0000 else x.v;
      [(u % 0x100) as byte, (u / 0x100) as byte]
    case U8 => [x.v as byte]
  }

  lemma DecodeEncodeScalar(k: ScalarKind, x: Scalar)
    requires Fits(k, x)
    ensures DecodeScalar(k, EncodeScalar(k, x)) == x
  {
    if k == I32 {
      Int32OfEncode(x.v);
    }
  }

  /** The `n` consecutive elements of kind `k` in `b`. */
  function UnpackAll(k: ScalarKind, n: nat, b: Bytes): (r: seq<Scalar>)
    requires |b| == n * KindSize(k)
    ensures |r| == n
  {
    if n == 0 then []
    else
      var w := KindSize(k);
      [DecodeScalar(k, b[..w])] + UnpackAll(k, n - 1, b[w..])
  }

  /** `struct.unpack(fmt, b)`: None stands for the `struct.error` raised
      when `b` is not exactly `calcsize(fmt)` bytes long. */
  function Unpack(f: Fmt, b: Bytes): (r: Option<seq<Scalar>>)
    ensures r.Some? <==> |b| == Size(f)
    ensures r.Some? ==> |r.value| == f.count
  {
    if |b| != Size(f) then None else Some(UnpackAll(f.kind, f.count, b))
  }

  function PackAll(k: ScalarKind, xs: seq<Scalar>): (b: Bytes)
    requires forall i :: 0 <= i < |xs| ==> Fits(k, xs[i])
    ensures |b| == |xs| * KindSize(k)
  {
    if xs == [] then [] else EncodeScalar(k, xs[0]) + PackAll(k, xs[1..])
  }

  /** Packing then unpacking gives back the elements. */
  lemma {:induction false} UnpackPack(k: ScalarKind, xs: seq<Scalar>)
    requires forall i :: 0 <= i < |xs| ==> Fits(k, xs[i])
    ensures Unpack(Fmt(k, |xs|), PackAll(k, xs)) == Some(xs)
  {
    if xs != [] {
      var w := KindSize(k);
      var b := PackAll(k, xs);
      UnpackPack(k, xs[1..]);
      DecodeEncodeScalar(k, xs[0]);
      assert b[..w] == EncodeScalar(k, xs[0]);
      assert b[w..] == PackAll(k, xs[1..]);
      assert |b| == |xs| * w;
      assert UnpackAll(k, |xs| - 1, b[w..]) == xs[1..];
      assert UnpackAll(k, |xs|, b) == [xs[0]] + xs[1..];
      assert [xs[0]] + xs[1..] == xs;
    }
  }

  /** A value as the decoder stores it: `_scalar_or_tuple` keeps a lone
      element bare and any other number of elements as a tuple. */
  datatype Value = One(x: Scalar) | Tuple(xs: seq<Scalar>)

  function Components(v: Value): seq<Scalar>
  {
    match v
    case One(x) => [x]
    case Tuple(xs) => xs
  }

  /** `_scalar_or_tuple(li)`. */
  function ScalarOrTuple(xs: seq<Scalar>): (r: Value)
    ensures Components(r) == xs
    ensures r.One? <==> |xs| == 1
  {
    if |xs| == 1 then One(xs[0]) else Tuple(xs)
  }

  /** A value `_scalar_or_tuple` can produce. */
  predicate Canonical(v: Value)
  {
    v.Tuple? ==> |v.xs| != 1
  }

  lemma ScalarOrTupleOfComponents(v: Value)
    requires Canonical(v)
    ensures ScalarOrTuple(Components(v)) == v
  {
  }
}
