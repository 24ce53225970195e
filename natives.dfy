/**
 * Precompiled contracts 1 to 4 (ecrecover, sha256, ripemd160, identity) and
 * the byte/word helpers they use. The hash functions and the public-key
 * recovery are foreign library calls and are passed in as `Hashers`.
 */
module Natives {
  import opened Wrappers
  import Smt

  type Byte = x: int | 0 <= x < 256

  type Digest32 = s: seq<Byte> | |s| == 32 witness seq(32, _ => 0)
  type Digest20 = s: seq<Byte> | |s| == 20 witness seq(20, _ => 0)

  /** The foreign functions the precompiles call. `None` stands for an exception. */
  datatype Hashers = Hashers(
    sha256: seq<Byte> -> Digest32,
    ripemd160: seq<Byte> -> Digest20,
    keccak256: seq<Byte> -> Digest32,
    ecrecoverToPub: (seq<Byte>, nat, nat, nat) -> Option<seq<Byte>>)

  /** The order of the secp256k1 group. */
  const Secp256k1n: nat := 0xFFFF_FFFF_FFFF_FFFF_FFFF_FFFF_FFFF_FFFE_BAAE_DCE6_AF48_A03B_BFD2_5E8C_D036_4141

  function Pow256(k: nat): (r: nat)
    ensures r > 0
  {
    if k == 0 then 1 else 256 * Pow256(k - 1)
  }

  lemma {:induction false} Pow256Is2To256()
    ensures Pow256(32) == Smt.Modulus
  {
    assert Pow256(1) == 0x100 by { assert Pow256(0) == 1; }
    PowAdd(1, 1);
    assert Pow256(2) == 0x1_0000;
    PowAdd(2, 2);
    assert Pow256(4) == 0x1_0000_0000;
    PowAdd(4, 4);
    assert Pow256(8) == 0x1_0000_0000_0000_0000;
    PowAdd(8, 8);
    assert Pow256(16) == 0x1_0000_0000_0000_0000_0000_0000_0000_0000;
    PowAdd(16, 16);
  }

  /** Big-endian value of a byte string (`bytearray_to_int`). */
  function FromBytes(s: seq<Byte>): nat
  {
    if s == [] then 0 else s[0] * Pow256(|s| - 1) + FromBytes(s[1..])
  }

  /** A byte string of length k holds a value below 256^k. */
  lemma {:induction false} FromBytesBound(s: seq<Byte>)
    ensures FromBytes(s) < Pow256(|s|)
  {
    if s != [] {
      FromBytesBound(s[1..]);
      var p := Pow256(|s| - 1);
      MulLe(s[0], 255, p);
      assert Pow256(|s|) == 256 * p;
    }
  }

  lemma MulLe(a: int, b: int, c: nat)
    requires a <= b
    ensures a * c <= b * c
  {
  }

  function Zeros(n: nat): (z: seq<Byte>)
    ensures |z| == n && forall k :: 0 <= k < n ==> z[k] == 0
  {
    seq(n, _ => 0)
  }

  lemma {:induction false} ZeroPadding(s: seq<Byte>, n: nat)
    ensures FromBytes(s + Zeros(n)) == FromBytes(s) * Pow256(n)
  {
    if s == [] {
      ZerosValue(n);
      assert s + Zeros(n) == Zeros(n);
    } else {
      var t := s + Zeros(n);
      assert t[1..] == s[1..] + Zeros(n);
      ZeroPadding(s[1..], n);
      PowAdd(|s| - 1, n);
      var a, p, q, f := s[0], Pow256(|s| - 1), Pow256(n), FromBytes(s[1..]);
      assert t[0] == a && |t| - 1 == |s| - 1 + n;
      assert FromBytes(t) == a * (p * q) + f * q;
      assert FromBytes(s) == a * p + f;
      Distribute(a, p, q, f);
    }
  }

  lemma Distribute(a: int, p: int, q: int, f: int)
    ensures a * (p * q) + f * q == (a * p + f) * q
  {
  }

  lemma {:induction false} ZerosValue(n: nat)
    ensures FromBytes(Zeros(n)) == 0
  {
    if n > 0 {
      assert Zeros(n)[1..] == Zeros(n - 1);
      ZerosValue(n - 1);
    }
  }

  lemma {:induction false} PowAdd(a: nat, b: nat)
    ensures Pow256(a + b) == Pow256(a) * Pow256(b)
  {
    if a > 0 {
      PowAdd(a - 1, b);
    }
  }

  /**
   * `int_to_32bytes`: 32 bytes, the big-endian encoding of `i` modulo 2^256
   * (Python's `&` and `>>` on a negative integer act on its two's complement).
   */
  method IntTo32Bytes(i: int) returns (r: seq<Byte>)
    ensures |r| == 32
    ensures FromBytes(r) == i % Smt.Modulus
  {
    var o := new Byte[32](_ => 0);
    var cur := i;
    for x := 0 to 32
      invariant forall k :: 0 <= k < 32 - x ==> o[k] == 0
      invariant FromBytes(o[32 - x..]) + cur * Pow256(x) == i
    {
      var b := cur % 256;
      ghost var done := o[32 - x..];
      o[31 - x] := b;
      assert o[31 - x..] == [b] + done;
      assert ([b] + done)[1..] == done;
      ShiftStep(cur, x, FromBytes(done));
      cur := cur / 256;
    }
    r := o[..];
    assert o[32 - 32..] == r;
    LowWord(i, r, cur);
  }

  /** When `i` is the 32 bytes plus a multiple of 2^256, the bytes hold `i` modulo 2^256. */
  lemma LowWord(i: int, r: seq<Byte>, q: int)
    requires |r| == 32 && FromBytes(r) + q * Pow256(32) == i
    ensures FromBytes(r) == i % Smt.Modulus
  {
    FromBytesBound(r);
    Pow256Is2To256();
    var m := Smt.Modulus;
    assert 0 <= FromBytes(r) < m && i == FromBytes(r) + q * m;
  }

  /** One iteration of the loop of `int_to_32bytes`: the low byte moves into the buffer. */
  lemma ShiftStep(c: int, x: nat, done: nat)
    ensures (c % 256) * Pow256(x) + done + (c / 256) * Pow256(x + 1) == done + c * Pow256(x)
  {
    var p := Pow256(x);
    assert Pow256(x + 1) == 256 * p;
    assert c == 256 * (c / 256) + c % 256;
    calc {
      (c % 256) * p + (c / 256) * (256 * p);
      (c % 256) * p + (256 * (c / 256)) * p;
      (c % 256 + 256 * (c / 256)) * p;
      c * p;
    }
  }

  /** What `extract32(data, i)` returns: the 32-byte big-endian word at `i`, zero-padded. */
  function Word32At(data: seq<Byte>, i: nat): nat
  {
    if i >= |data| then 0
    else
      var o := data[i..if i + 32 < |data| then i + 32 else |data|];
      FromBytes(o + Zeros(32 - |o|))
  }

  /**
   * `extract32`: zero past the end of the data; otherwise up to 32 bytes from `i`,
   * zero-padded on the right, read big-endian. The result fits in 256 bits.
   */
  method Extract32(data: seq<Byte>, i: nat) returns (r: nat)
    ensures i >= |data| ==> r == 0
    ensures i < |data| && i + 32 <= |data| ==> r == FromBytes(data[i..i + 32])
    ensures r == Word32At(data, i)
    ensures r < Smt.Modulus
  {
    if i >= |data| {
      return 0;
    }
    var o := data[i..if i + 32 < |data| then i + 32 else |data|];
    o := o + Zeros(32 - |o|);
    r := FromBytes(o);
    FromBytesBound(o);
    Pow256Is2To256();
    if i + 32 <= |data| {
      assert Zeros(0) == [];
      assert o == data[i..i + 32];
    }
  }

  /** Reading back the 32 bytes written by `int_to_32bytes(x)` gives `x`, for `0 <= x < 2^256`. */
  lemma {:induction false} Extract32OfIntTo32Bytes(x: nat, b: seq<Byte>)
    requires x < Smt.Modulus
    requires |b| == 32 && FromBytes(b) == x % Smt.Modulus
    ensures Word32At(b, 0) == x
  {
    assert b[0..32] == b;
    assert b + Zeros(0) == b;
  }

  /** The bytes from `i` of a word written at `i` are padded with zeros when the data ends early. */
  lemma {:induction false} Word32AtShort(data: seq<Byte>, i: nat)
    requires i < |data| < i + 32
    ensures Word32At(data, i) == FromBytes(data[i..]) * Pow256(32 - (|data| - i))
  {
    assert data[i..|data|] == data[i..];
    ZeroPadding(data[i..], 32 - (|data| - i));
  }

  /**
   * `ecrecover`: `[]` when r or s is not below the group order, when v is neither
   * 27 nor 28, or when key recovery fails; otherwise 12 zero bytes followed by the
   * last 20 bytes of the keccak hash of the recovered public key.
   */
  function Ecrecover(data: seq<Byte>, h: Hashers): (out: seq<Byte>)
    ensures var v, r, s := Word32At(data, 32), Word32At(data, 64), Word32At(data, 96);
            (r >= Secp256k1n || s >= Secp256k1n || v < 27 || v > 28) ==> out == []
    ensures out == [] || (|out| == 32 && forall k :: 0 <= k < 12 ==> out[k] == 0)
    ensures var v, r, s := Word32At(data, 32), Word32At(data, 64), Word32At(data, 96);
            var message := data[..if |data| < 32 then |data| else 32];
            r < Secp256k1n && s < Secp256k1n && 27 <= v <= 28 ==>
              match h.ecrecoverToPub(message, v, r, s)
              case None => out == []
              case Some(pub) => out == Zeros(12) + h.keccak256(pub)[12..]
  {
    var v := Word32At(data, 32);
    var r := Word32At(data, 64);
    var s := Word32At(data, 96);
    var message := data[..if |data| < 32 then |data| else 32];
    if r >= Secp256k1n || s >= Secp256k1n || v < 27 || v > 28 then []
    else
      match h.ecrecoverToPub(message, v, r, s)
      case None => []
      case Some(pub) => Zeros(12) + h.keccak256(pub)[12..]
  }

  /** `sha256`: the digest of the input. */
  function Sha256(data: seq<Byte>, h: Hashers): (out: seq<Byte>)
    ensures |out| == 32 && out == h.sha256(data)
  {
    h.sha256(data)
  }

  /** `ripemd160`: 12 zero bytes followed by the 20-byte digest. */
  function Ripemd160(data: seq<Byte>, h: Hashers): (out: seq<Byte>)
    ensures |out| == 32 && out[..12] == Zeros(12) && out[12..] == h.ripemd160(data)
  {
    Zeros(12) + h.ripemd160(data)
  }

  /** `identity`: the input, unchanged. */
  function Identity(data: seq<Byte>): (out: seq<Byte>)
    ensures out == data
  {
    data
  }

  /** The call data of a message call: concrete bytes, or symbolic. */
  datatype Calldata = ConcreteCalldata(bytes: seq<Byte>) | SymbolicCalldata

  function Precompile(k: nat, data: seq<Byte>, h: Hashers): seq<Byte>
    requires k < 4
  {
    if k == 0 then Ecrecover(data, h)
    else if k == 1 then Sha256(data, h)
    else if k == 2 then Ripemd160(data, h)
    else Identity(data)
  }

  /**
   * `native_contracts(address, data)`: symbolic call data raises
   * `NativeContractException`; otherwise `functions[address - 1]` of the tuple
   * (ecrecover, sha256, ripemd160, identity) with Python indexing, so an index
   * from -4 to -1 counts from the end and any other index outside 0..3 raises
   * `IndexError`.
   */
  function NativeContracts(address: int, data: Calldata, h: Hashers): (r: Result<seq<Byte>>)
    ensures data.SymbolicCalldata? ==> r == Failure(NativeContractException)
    ensures data.ConcreteCalldata? && address == 1 ==> r == Success(Ecrecover(data.bytes, h))
    ensures data.ConcreteCalldata? && address == 2 ==> r == Success(Sha256(data.bytes, h))
    ensures data.ConcreteCalldata? && address == 3 ==> r == Success(Ripemd160(data.bytes, h))
    ensures data.ConcreteCalldata? && address == 4 ==> r == Success(data.bytes)
    ensures data.ConcreteCalldata? && (address < -3 || address > 4) ==> r == Failure(IndexError)
    ensures data.ConcreteCalldata? && address == -3 ==> r == Success(Ecrecover(data.bytes, h))
    ensures data.ConcreteCalldata? && address == -2 ==> r == Success(Sha256(data.bytes, h))
    ensures data.ConcreteCalldata? && address == -1 ==> r == Success(Ripemd160(data.bytes, h))
    ensures data.ConcreteCalldata? && address == 0 ==> r == Success(data.bytes)
  {
    match data
    case SymbolicCalldata => Failure(NativeContractException)
    case ConcreteCalldata(bytes) =>
      var k := address - 1;
      if 0 <= k < 4 then Success(Precompile(k, bytes, h))
      else if -4 <= k < 0 then Success(Precompile(k + 4, bytes, h))
      else Failure(IndexError)
  }
}
