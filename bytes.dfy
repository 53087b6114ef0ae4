/**
 * Fixed-width EVM values: 256-bit words, 20-byte addresses, 32-byte buffers,
 * and the conversions between a 256-bit integer and its 32 bytes in either
 * byte order (`to_be_bytes` and `as_le_slice` on a 256-bit integer).
 */
module Bytes {

  /** An octet. */
  newtype Byte = b: int | 0 <= b < 256

  /** 2^256, one past the largest 256-bit word. */
  const TWO_POW_256: nat := 0x1_0000_0000_0000_0000_0000_0000_0000_0000_0000_0000_0000_0000_0000_0000_0000_0000

  /** An unsigned 256-bit integer. */
  type U256 = n: nat | n < TWO_POW_256

  /** A 20-byte account address. */
  type Address = s: seq<Byte> | |s| == 20 witness seq(20, _ => 0)

  /** A 32-byte buffer: a storage slot identifier or a hash digest. */
  type B256 = s: seq<Byte> | |s| == 32 witness seq(32, _ => 0)

  function Pow256(n: nat): (r: nat)
    ensures r > 0
  {
    if n == 0 then 1 else 256 * Pow256(n - 1)
  }

  lemma {:induction false} Pow256Add(a: nat, b: nat)
    ensures Pow256(a + b) == Pow256(a) * Pow256(b)
  {
    if a > 0 {
      Pow256Add(a - 1, b);
    }
  }

  lemma Pow256Word()
    ensures Pow256(32) == TWO_POW_256
  {
    assert Pow256(4) == 0x1_0000_0000;
    Pow256Add(4, 4);
    Pow256Add(8, 8);
    Pow256Add(16, 16);
  }

  /** The n low-order bytes of x, most significant first. */
  function BigEndian(x: nat, n: nat): (r: seq<Byte>)
    ensures |r| == n
  {
    if n == 0 then [] else BigEndian(x / 256, n - 1) + [(x % 256) as Byte]
  }

  /** The n low-order bytes of x, least significant first. */
  function LittleEndian(x: nat, n: nat): (r: seq<Byte>)
    ensures |r| == n
  {
    if n == 0 then [] else [(x % 256) as Byte] + LittleEndian(x / 256, n - 1)
  }

  /** Reads bytes as an unsigned integer, most significant first. */
  function FromBigEndian(s: seq<Byte>): (r: nat)
    ensures r < Pow256(|s|)
  {
    if s == [] then 0 else FromBigEndian(s[..|s| - 1]) * 256 + s[|s| - 1] as nat
  }

  /** Reads bytes as an unsigned integer, least significant first. */
  function FromLittleEndian(s: seq<Byte>): (r: nat)
    ensures r < Pow256(|s|)
  {
    if s == [] then 0 else s[0] as nat + 256 * FromLittleEndian(s[1..])
  }

  /** `U256::to_be_bytes`: the 32 big-endian bytes of a word. */
  function ToBE(x: U256): (r: B256)
    ensures FromBigEndian(r) == x
  {
    Pow256Word();
    BigEndianRoundTrip(x, 32);
    BigEndian(x, 32)
  }

  /** `U256::as_le_slice`: the 32 little-endian bytes of a word. */
  function ToLE(x: U256): (r: B256)
    ensures FromLittleEndian(r) == x
  {
    Pow256Word();
    LittleEndianRoundTrip(x, 32);
    LittleEndian(x, 32)
  }

  /** Reads a 32-byte buffer as a big-endian word. */
  function WordFromBE(b: B256): (r: U256)
    ensures ToBE(r) == b
  {
    Pow256Word();
    BigEndianOfRead(b);
    FromBigEndian(b)
  }

  /** `Address::into_word`: 12 zero bytes followed by the 20 address bytes. */
  function Pad32(a: Address): (r: B256)
    ensures r[..12] == seq(12, _ => 0)
    ensures r[12..] == a
  {
    seq(12, _ => 0) + a
  }

  /** Distinct holders pad to distinct words, so their mapping-key preimages
      differ. */
  lemma Pad32Injective(a: Address, b: Address)
    requires Pad32(a) == Pad32(b)
    ensures a == b
  {
    assert Pad32(a)[12..] == a;
  }

  function Reverse(s: seq<Byte>): (r: seq<Byte>)
    ensures |r| == |s|
  {
    if s == [] then [] else Reverse(s[1..]) + [s[0]]
  }

  lemma {:induction false} BigEndianRoundTrip(x: nat, n: nat)
    requires x < Pow256(n)
    ensures FromBigEndian(BigEndian(x, n)) == x
  {
    if n > 0 {
      var s := BigEndian(x, n);
      assert s[..n - 1] == BigEndian(x / 256, n - 1);
      BigEndianRoundTrip(x / 256, n - 1);
    }
  }

  lemma {:induction false} LittleEndianRoundTrip(x: nat, n: nat)
    requires x < Pow256(n)
    ensures FromLittleEndian(LittleEndian(x, n)) == x
  {
    if n > 0 {
      var s := LittleEndian(x, n);
      var rest := LittleEndian(x / 256, n - 1);
      assert s[1..] == rest;
      DivBound(x, Pow256(n - 1));
      LittleEndianRoundTrip(x / 256, n - 1);
      assert FromLittleEndian(s) == s[0] as nat + 256 * FromLittleEndian(rest);
    }
  }

  lemma DivBound(x: nat, m: nat)
    requires x < 256 * m
    ensures x / 256 < m
  {
  }

  lemma {:induction false} BigEndianOfRead(s: seq<Byte>)
    ensures BigEndian(FromBigEndian(s), |s|) == s
  {
    if s != [] {
      var init := s[..|s| - 1];
      BigEndianOfRead(init);
      assert s == init + [s[|s| - 1]];
    }
  }

  lemma {:induction false} LittleEndianOfRead(s: seq<Byte>)
    ensures LittleEndian(FromLittleEndian(s), |s|) == s
  {
    if s != [] {
      var x := FromLittleEndian(s);
      var rest := FromLittleEndian(s[1..]);
      assert x % 256 == s[0] as nat && x / 256 == rest;
      LittleEndianOfRead(s[1..]);
      assert s == [s[0]] + s[1..];
    }
  }

  /** The little-endian bytes are the big-endian bytes reversed. */
  lemma {:induction false} LittleIsReversedBig(x: nat, n: nat)
    ensures LittleEndian(x, n) == Reverse(BigEndian(x, n))
  {
    if n > 0 {
      LittleIsReversedBig(x / 256, n - 1);
      var b := BigEndian(x / 256, n - 1);
      ReverseAppend(b, (x % 256) as Byte);
    }
  }

  lemma {:induction false} ReverseAppend(s: seq<Byte>, b: Byte)
    ensures Reverse(s + [b]) == [b] + Reverse(s)
  {
    if s != [] {
      assert (s + [b])[1..] == s[1..] + [b];
      ReverseAppend(s[1..], b);
    }
  }

  lemma ToLEIsReversedToBE(x: U256)
    ensures ToLE(x) == Reverse(ToBE(x))
  {
    LittleIsReversedBig(x, 32);
  }

  /** Distinct words have distinct big-endian encodings. */
  lemma ToBEInjective(x: U256, y: U256)
    requires ToBE(x) == ToBE(y)
    ensures x == y
  {
  }

  /** Distinct words have distinct little-endian encodings. */
  lemma ToLEInjective(x: U256, y: U256)
    requires ToLE(x) == ToLE(y)
    ensures x == y
  {
  }
}
