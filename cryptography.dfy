/** The payload cipher of cryptography/cryptography.go: CFB mode with
    128-bit segments (NIST SP 800-38A, section 6.3) over the AES block
    function (FIPS 197), keyed by the bytes of a secret string, with one
    16-byte IV drawn once per instance, and the ciphertext carried in standard
    Base64 (RFC 4648, section 4).

    The AES forward function is left uninterpreted: it is a parameter of type
    `Aes`, so every property proved here holds for any block function. A Go
    `string` that the cipher produces or reads is modelled as its bytes
    (`seq<byte>`), which is what `[]byte(s)` and `string(b)` preserve. */
module Cryptography {
  import opened Common

  const BlockSize: nat := 16

  type Block = s: seq<byte> | |s| == 16 witness [0, 0, 0, 0, 0, 0, 0, 0, 0, 0, 0, 0, 0, 0, 0, 0]

  /** The AES forward cipher as a function of the key bytes and one block. */
  type Aes = (seq<byte>, Block) -> Block

  /** `aes.NewCipher` accepts a key of 16, 24 or 32 bytes only. */
  predicate ValidKeyLength(n: nat)
  {
    n == 16 || n == 24 || n == 32
  }

  /** `aes.KeySizeError` and `base64.CorruptInputError` (whose byte offset the
      model does not carry). */
  datatype CryptoError = KeySizeError(size: nat) | CorruptInputError

  /** `subtle.XORBytes` over the length of `a`. */
  function Xor(a: seq<byte>, b: seq<byte>): (r: seq<byte>)
    requires |a| <= |b|
    ensures |r| == |a|
    ensures forall i :: 0 <= i < |a| ==> r[i] == a[i] ^ b[i]
  {
    seq(|a|, i requires 0 <= i < |a| => a[i] ^ b[i])
  }

  lemma XorTwice(a: seq<byte>, b: seq<byte>)
    requires |a| <= |b|
    ensures Xor(Xor(a, b), b) == a
  {
  }

  // ---------------------------------------------------------------------------
  // CFB with full-block segments (NIST SP 800-38A, section 6.3)
  // ---------------------------------------------------------------------------

  /** CFB encryption from register `reg`: each ciphertext block is the
      plaintext block XOR the cipher of the previous ciphertext block (of the
      IV for the first); a final partial block uses a prefix of the keystream. */
  function CfbEncrypt(aes: Aes, key: seq<byte>, reg: Block, p: seq<byte>): (c: seq<byte>)
    ensures |c| == |p|
    decreases |p|
  {
    if |p| <= BlockSize then Xor(p, aes(key, reg))
    else
      var head := Xor(p[..BlockSize], aes(key, reg));
      head + CfbEncrypt(aes, key, head, p[BlockSize..])
  }

  /** CFB decryption from register `reg`: the feedback is the ciphertext
      being read. */
  function CfbDecrypt(aes: Aes, key: seq<byte>, reg: Block, c: seq<byte>): (p: seq<byte>)
    ensures |p| == |c|
    decreases |c|
  {
    if |c| <= BlockSize then Xor(c, aes(key, reg))
    else Xor(c[..BlockSize], aes(key, reg)) + CfbDecrypt(aes, key, c[..BlockSize], c[BlockSize..])
  }

  /** The keystream operation of a CFB stream in either direction. */
  function Cfb(decrypt: bool, aes: Aes, key: seq<byte>, reg: Block, src: seq<byte>): (dst: seq<byte>)
    ensures |dst| == |src|
  {
    if decrypt then CfbDecrypt(aes, key, reg, src) else CfbEncrypt(aes, key, reg, src)
  }

  /** Decryption undoes encryption for every block function, key and IV. */
  lemma {:induction false} CfbDecryptEncrypt(aes: Aes, key: seq<byte>, reg: Block, p: seq<byte>)
    ensures CfbDecrypt(aes, key, reg, CfbEncrypt(aes, key, reg, p)) == p
    decreases |p|
  {
    var c := CfbEncrypt(aes, key, reg, p);
    if |p| <= BlockSize {
      XorTwice(p, aes(key, reg));
    } else {
      var head := Xor(p[..BlockSize], aes(key, reg));
      assert c[..BlockSize] == head && c[BlockSize..] == CfbEncrypt(aes, key, head, p[BlockSize..]);
      XorTwice(p[..BlockSize], aes(key, reg));
      CfbDecryptEncrypt(aes, key, head, p[BlockSize..]);
      assert p == p[..BlockSize] + p[BlockSize..];
    }
  }

  /** Encryption undoes decryption: CFB is a bijection on byte strings of
      each length, so every ciphertext is the encryption of its decryption. */
  lemma {:induction false} CfbEncryptDecrypt(aes: Aes, key: seq<byte>, reg: Block, c: seq<byte>)
    ensures CfbEncrypt(aes, key, reg, CfbDecrypt(aes, key, reg, c)) == c
    decreases |c|
  {
    var p := CfbDecrypt(aes, key, reg, c);
    if |c| <= BlockSize {
      XorTwice(c, aes(key, reg));
    } else {
      var head := Xor(c[..BlockSize], aes(key, reg));
      assert p[..BlockSize] == head && p[BlockSize..] == CfbDecrypt(aes, key, c[..BlockSize], c[BlockSize..]);
      XorTwice(c[..BlockSize], aes(key, reg));
      CfbEncryptDecrypt(aes, key, c[..BlockSize], c[BlockSize..]);
      assert c == c[..BlockSize] + c[BlockSize..];
    }
  }

  /** The next register of a stream that has just processed `n` bytes of
      `rest` into `head`: the ciphertext block, once a whole block is done. */
  function NextRegister(decrypt: bool, reg: Block, rest: seq<byte>, head: seq<byte>): Block
    requires |rest| >= |head|
  {
    if |head| == BlockSize && |rest| > BlockSize then
      if decrypt then rest[..BlockSize] else head
    else reg
  }

  /** One block of the stream: the keystream block is the cipher of the
      register; what is left to do is the stream from the next register. */
  lemma CfbStep(decrypt: bool, aes: Aes, key: seq<byte>, reg: Block, rest: seq<byte>, head: seq<byte>)
    requires |rest| > 0
    requires var n := if |rest| < BlockSize then |rest| else BlockSize;
      head == Xor(rest[..n], aes(key, reg))
    ensures |head| <= |rest|
    ensures Cfb(decrypt, aes, key, reg, rest)
      == head + Cfb(decrypt, aes, key, NextRegister(decrypt, reg, rest, head), rest[|head|..])
  {
    if |rest| <= BlockSize {
      assert rest[..|rest|] == rest;
      assert rest[|head|..] == [];
    }
  }

  /** The loop step of `XorKeyStream`: with `done` written and the stream of
      `src[i..]` from `reg` still to do, writing one more block `head` leaves
      the stream of `src[i + |head|..]` from the next register. */
  lemma StreamStep(decrypt: bool, aes: Aes, key: seq<byte>, reg: Block, src: seq<byte>, i: nat,
                   done: seq<byte>, head: seq<byte>, want: seq<byte>)
    requires i < |src|
    requires want == done + Cfb(decrypt, aes, key, reg, src[i..])
    requires var n := if |src| - i < BlockSize then |src| - i else BlockSize;
      head == Xor(src[i..i + n], aes(key, reg))
    ensures i + |head| <= |src|
    ensures want == (done + head)
      + Cfb(decrypt, aes, key, NextRegister(decrypt, reg, src[i..], head), src[i + |head|..])
  {
    var rest := src[i..];
    var n := if |src| - i < BlockSize then |src| - i else BlockSize;
    assert rest[..n] == src[i..i + n];
    CfbStep(decrypt, aes, key, reg, rest, head);
    assert rest[|head|..] == src[i + |head|..];
  }

  /** `subtle.XORBytes(dst[at:], src, out)`: writes `src` XOR `out` into
      `dst` from index `at` and leaves the rest of `dst` alone. */
  method XorBytes(dst: array<byte>, at: nat, src: seq<byte>, out: seq<byte>)
    requires at + |src| <= dst.Length && |src| <= |out|
    modifies dst
    ensures dst[..at] == old(dst[..at])
    ensures dst[at..at + |src|] == Xor(src, out)
    ensures dst[at + |src|..] == old(dst[at + |src|..])
  {
    var j := 0;
    while j < |src|
      invariant 0 <= j <= |src|
      invariant dst[..at] == old(dst[..at])
      invariant dst[at + |src|..] == old(dst[at + |src|..])
      invariant forall k :: 0 <= k < j ==> dst[at + k] == src[k] ^ out[k]
      decreases |src| - j
    {
      dst[at + j] := src[j] ^ out[j];
      j := j + 1;
    }
  }

  /** A prefix is the shorter prefix followed by the slice between. */
  lemma PrefixSplit<T>(s: seq<T>, i: nat, j: nat)
    requires i <= j <= |s|
    ensures s[..j] == s[..i] + s[i..j]
  {
  }

  /** The loop step of `XorKeyStream` on the buffer contents `written`:
      once the next `n` bytes hold the keystream block XOR the source, the
      written prefix grows by them and the stream left to do starts from the
      next register. */
  lemma StreamAdvance(decrypt: bool, aes: Aes, key: seq<byte>, reg: Block, src: seq<byte>, i: nat, n: nat,
                      written: seq<byte>, want: seq<byte>)
    requires i < |src| && |written| == |src|
    requires n == if |src| - i < BlockSize then |src| - i else BlockSize
    requires want == written[..i] + Cfb(decrypt, aes, key, reg, src[i..])
    requires written[i..i + n] == Xor(src[i..i + n], aes(key, reg))
    ensures want == written[..i + n]
      + Cfb(decrypt, aes, key, NextRegister(decrypt, reg, src[i..], written[i..i + n]), src[i + n..])
  {
    PrefixSplit(written, i, i + n);
    StreamStep(decrypt, aes, key, reg, src, i, written[..i], written[i..i + n], want);
  }

  /** One pass of `cipher.Stream.XORKeyStream` on a fresh CFB stream: the
      source's `make([]byte, n)` buffer `dst` is filled in place, a block at a
      time; `next` is the block fed to the cipher and `out` the keystream. */
  method XorKeyStream(aes: Aes, key: seq<byte>, iv: Block, dst: array<byte>, src: seq<byte>, decrypt: bool)
    requires dst.Length == |src|
    modifies dst
    ensures dst[..] == Cfb(decrypt, aes, key, iv, src)
  {
    ghost var want := Cfb(decrypt, aes, key, iv, src);
    var next: Block := iv;
    var i := 0;
    while i < |src|
      invariant 0 <= i <= |src|
      invariant want == dst[..i] + Cfb(decrypt, aes, key, next, src[i..])
      decreases |src| - i
    {
      var out := aes(key, next);
      var n := if |src| - i < BlockSize then |src| - i else BlockSize;
      XorBytes(dst, i, src[i..i + n], out);
      var head := dst[i..i + n];
      StreamAdvance(decrypt, aes, key, next, src, i, n, dst[..], want);
      next := NextRegister(decrypt, next, src[i..], head);
      i := i + n;
    }
    assert dst[..] == dst[..i];
  }

  // ---------------------------------------------------------------------------
  // Standard Base64 (RFC 4648, section 4) as `base64.StdEncoding` does it
  // ---------------------------------------------------------------------------

  const Pad: byte := 61 // '='

  /** The alphabet of RFC 4648, table 1, as ASCII bytes. */
  function AlphabetByte(v: bv8): (b: byte)
    requires v < 64
    ensures b < 0x80 && b != Pad && b != 10 && b != 13
    ensures DecodeByte(b) == Some(v)
  {
    if v < 26 then 65 + v        // 'A'..'Z'
    else if v < 52 then 71 + v   // 'a'..'z'
    else if v < 62 then v - 4    // '0'..'9'
    else if v == 62 then 43      // '+'
    else 47                      // '/'
  }

  /** The decoding table: the value of an alphabet byte, none for any other. */
  function DecodeByte(b: byte): (v: Option<bv8>)
    ensures v.Some? ==> v.value < 64
  {
    if 65 <= b <= 90 then Some(b - 65)
    else if 97 <= b <= 122 then Some(b - 71)
    else if 48 <= b <= 57 then Some(b + 4)
    else if b == 43 then Some(62)
    else if b == 47 then Some(63)
    else None
  }

  /** The decoding table inverts the alphabet: a byte with a value is the
      alphabet byte of that value. */
  lemma AlphabetDecode(b: byte)
    ensures DecodeByte(b).Some? ==> AlphabetByte(DecodeByte(b).value) == b
  {
  }

  predicate IsEncodedByte(b: byte)
  {
    b == Pad || DecodeByte(b).Some?
  }

  /** The four output bytes of one full group of three input bytes. */
  function EncodeGroup(b0: byte, b1: byte, b2: byte): (e: seq<byte>)
    ensures |e| == 4 && forall i :: 0 <= i < 4 ==> DecodeByte(e[i]).Some?
  {
    [AlphabetByte(b0 >> 2), AlphabetByte(((b0 & 3) << 4) | (b1 >> 4)),
     AlphabetByte(((b1 & 15) << 2) | (b2 >> 6)), AlphabetByte(b2 & 63)]
  }

  /** `base64.StdEncoding.EncodeToString`, the source's `encode`. */
  function Encode(src: seq<byte>): (e: seq<byte>)
    ensures |e| == 4 * ((|src| + 2) / 3) && |e| % 4 == 0
    ensures forall i :: 0 <= i < |e| ==> IsEncodedByte(e[i])
    decreases |src|
  {
    if |src| == 0 then []
    else if |src| == 1 then
      [AlphabetByte(src[0] >> 2), AlphabetByte((src[0] & 3) << 4), Pad, Pad]
    else if |src| == 2 then
      [AlphabetByte(src[0] >> 2), AlphabetByte(((src[0] & 3) << 4) | (src[1] >> 4)),
       AlphabetByte((src[1] & 15) << 2), Pad]
    else EncodeGroup(src[0], src[1], src[2]) + Encode(src[3..])
  }

  /** The decoder skips carriage returns and line feeds wherever they occur. */
  function StripNewlines(t: seq<byte>): (q: seq<byte>)
    ensures |q| <= |t|
    ensures forall i :: 0 <= i < |q| ==> q[i] != 10 && q[i] != 13
  {
    if |t| == 0 then []
    else if t[0] == 10 || t[0] == 13 then StripNewlines(t[1..])
    else [t[0]] + StripNewlines(t[1..])
  }

  /** Four alphabet bytes give three bytes (a quantum in the middle). */
  /** The three bytes whose sextets are `s0 .. s3`. */
  function Triple(s0: bv8, s1: bv8, s2: bv8, s3: bv8): seq<byte>
  {
    [(s0 << 2) | (s1 >> 4), (s1 << 4) | (s2 >> 2), (s2 << 6) | s3]
  }

  /** A quantum in the middle of the input: four alphabet bytes. */
  function DecodeQuantum(a: byte, b: byte, c: byte, d: byte): (r: Result<seq<byte>, CryptoError>)
    ensures r.Ok? ==> |r.value| == 3
  {
    Assemble(DecodeByte(a), DecodeByte(b), DecodeByte(c), DecodeByte(d))
  }

  function Assemble(x0: Option<bv8>, x1: Option<bv8>, x2: Option<bv8>, x3: Option<bv8>): (r: Result<seq<byte>, CryptoError>)
    ensures r.Ok? ==> |r.value| == 3
  {
    if x0.Some? && x1.Some? && x2.Some? && x3.Some? then Ok(Triple(x0.value, x1.value, x2.value, x3.value))
    else Err(CorruptInputError)
  }

  /** The last quantum: four alphabet bytes, or two or three followed by
      padding, which then stands for one or two bytes. */
  function DecodeLast(a: byte, b: byte, c: byte, d: byte): (r: Result<seq<byte>, CryptoError>)
    ensures r.Ok? ==> 1 <= |r.value| <= 3
  {
    AssembleLast(DecodeByte(a), DecodeByte(b), DecodeByte(c), DecodeByte(d), c == Pad, d == Pad)
  }

  function AssembleLast(x0: Option<bv8>, x1: Option<bv8>, x2: Option<bv8>, x3: Option<bv8>, padC: bool, padD: bool): (r: Result<seq<byte>, CryptoError>)
    ensures r.Ok? ==> 1 <= |r.value| <= 3
  {
    if !(x0.Some? && x1.Some?) then Err(CorruptInputError)
    else if x2.Some? && x3.Some? then Ok(Triple(x0.value, x1.value, x2.value, x3.value))
    else if x2.Some? && padD then Ok(Triple(x0.value, x1.value, x2.value, 0)[..2])
    else if x2.None? && padC && padD then Ok(Triple(x0.value, x1.value, 0, 0)[..1])
    else Err(CorruptInputError)
  }

  function DecodeQuanta(q: seq<byte>): (r: Result<seq<byte>, CryptoError>)
    requires |q| % 4 == 0
    decreases |q|
  {
    if |q| == 0 then Ok([])
    else if |q| == 4 then DecodeLast(q[0], q[1], q[2], q[3])
    else
      match DecodeQuantum(q[0], q[1], q[2], q[3])
      case Err(e) => Err(e)
      case Ok(head) =>
        match DecodeQuanta(q[4..])
        case Err(e) => Err(e)
        case Ok(tail) => Ok(head + tail)
  }

  /** `base64.StdEncoding.DecodeString`, the source's `decode`: padding is
      required, so once newlines are dropped the input is whole quanta. */
  function Decode(t: seq<byte>): Result<seq<byte>, CryptoError>
  {
    var q := StripNewlines(t);
    if |q| % 4 != 0 then Err(CorruptInputError) else DecodeQuanta(q)
  }

  /** Dropping newlines works piece by piece: a single byte is dropped
      exactly when it is a carriage return or a line feed, and the bytes
      kept from a concatenation are those kept from each part, in order. */
  lemma {:induction false} StripNewlinesConcat(u: seq<byte>, v: seq<byte>)
    ensures StripNewlines(u + v) == StripNewlines(u) + StripNewlines(v)
    ensures |u| == 1 ==> StripNewlines(u) == if u[0] == 10 || u[0] == 13 then [] else u
    decreases |u|
  {
    if |u| > 0 {
      assert (u + v)[0] == u[0];
      assert (u + v)[1..] == u[1..] + v;
      StripNewlinesConcat(u[1..], v);
      if |u| == 1 {
        assert u[1..] == [];
        assert StripNewlines(u[1..]) == [];
      }
    } else {
      assert u + v == v;
    }
  }

  /** The decoder ignores a carriage return or a line feed wherever it
      occurs in its input. */
  lemma DecodeIgnoresNewline(u: seq<byte>, v: seq<byte>, b: byte)
    requires b == 10 || b == 13
    ensures Decode(u + [b] + v) == Decode(u + v)
  {
    StripNewlinesDropsOne(u, v, b);
  }

  lemma StripNewlinesDropsOne(u: seq<byte>, v: seq<byte>, b: byte)
    requires b == 10 || b == 13
    ensures StripNewlines(u + [b] + v) == StripNewlines(u + v)
  {
    StripNewlinesConcat([b], []);
    assert StripNewlines([b]) == [];
    StripNewlinesConcat(u, [b]);
    assert StripNewlines(u + [b]) == StripNewlines(u);
    StripNewlinesConcat(u + [b], v);
    StripNewlinesConcat(u, v);
  }

  lemma {:induction false} StripNewlinesNone(t: seq<byte>)
    requires forall i :: 0 <= i < |t| ==> t[i] != 10 && t[i] != 13
    ensures StripNewlines(t) == t
  {
    if |t| > 0 {
      StripNewlinesNone(t[1..]);
      assert t == [t[0]] + t[1..];
    }
  }

  /** The bit arithmetic of Base64: the sextets of three bytes give the
      three bytes back. */
  lemma SextetBits(b0: byte, b1: byte, b2: byte)
    ensures var s0, s1, s2, s3 := b0 >> 2, ((b0 & 3) << 4) | (b1 >> 4), ((b1 & 15) << 2) | (b2 >> 6), b2 & 63;
      && s0 < 64 && s1 < 64 && s2 < 64 && s3 < 64
      && (s0 << 2) | (s1 >> 4) == b0
      && (s1 << 4) | (s2 >> 2) == b1
      && (s2 << 6) | s3 == b2
  {
  }

  /** One quantum decodes to the three bytes it encodes, in the middle or at
      the end of the input. */
  lemma DecodeGroup(b0: byte, b1: byte, b2: byte)
    ensures var g := EncodeGroup(b0, b1, b2);
      && DecodeQuantum(g[0], g[1], g[2], g[3]) == Ok([b0, b1, b2])
      && DecodeLast(g[0], g[1], g[2], g[3]) == Ok([b0, b1, b2])
  {
    SextetBits(b0, b1, b2);
    var s0, s1, s2, s3 := b0 >> 2, ((b0 & 3) << 4) | (b1 >> 4), ((b1 & 15) << 2) | (b2 >> 6), b2 & 63;
    var g := EncodeGroup(b0, b1, b2);
    assert g == [AlphabetByte(s0), AlphabetByte(s1), AlphabetByte(s2), AlphabetByte(s3)];
    assert Triple(s0, s1, s2, s3) == [b0, b1, b2];
  }

  /** The bit arithmetic of a final quantum with one padding byte. */
  lemma TailBitsTwo(b0: byte, b1: byte)
    ensures var s0, s1, s2 := b0 >> 2, ((b0 & 3) << 4) | (b1 >> 4), (b1 & 15) << 2;
      && s0 < 64 && s1 < 64 && s2 < 64
      && Triple(s0, s1, s2, 0)[..2] == [b0, b1]
  {
    var s0, s1, s2 := b0 >> 2, ((b0 & 3) << 4) | (b1 >> 4), (b1 & 15) << 2;
    assert (s0 << 2) | (s1 >> 4) == b0 && (s1 << 4) | (s2 >> 2) == b1;
  }

  /** The bit arithmetic of a final quantum with two padding bytes. */
  lemma TailBitsOne(b0: byte)
    ensures var s0, s1 := b0 >> 2, (b0 & 3) << 4;
      && s0 < 64 && s1 < 64
      && Triple(s0, s1, 0, 0)[..1] == [b0]
  {
    var s0, s1 := b0 >> 2, (b0 & 3) << 4;
    assert (s0 << 2) | (s1 >> 4) == b0;
  }

  /** A final quantum of two alphabet bytes and two paddings. */
  lemma DecodeLastOne(s0: bv8, s1: bv8)
    requires s0 < 64 && s1 < 64
    ensures DecodeLast(AlphabetByte(s0), AlphabetByte(s1), Pad, Pad) == Ok(Triple(s0, s1, 0, 0)[..1])
  {
  }

  /** A final quantum of three alphabet bytes and one padding. */
  lemma DecodeLastTwo(s0: bv8, s1: bv8, s2: bv8)
    requires s0 < 64 && s1 < 64 && s2 < 64
    ensures DecodeLast(AlphabetByte(s0), AlphabetByte(s1), AlphabetByte(s2), Pad) == Ok(Triple(s0, s1, s2, 0)[..2])
  {
  }

  /** A final quantum with two padding bytes decodes to its one byte. */
  lemma DecodeTailOne(b0: byte)
    ensures var e := Encode([b0]); |e| == 4 && DecodeLast(e[0], e[1], e[2], e[3]) == Ok([b0])
  {
    var s0, s1 := b0 >> 2, (b0 & 3) << 4;
    TailBitsOne(b0);
    assert Encode([b0]) == [AlphabetByte(s0), AlphabetByte(s1), Pad, Pad];
    DecodeLastOne(s0, s1);
  }

  lemma EncodeTwo(b0: byte, b1: byte)
    ensures Encode([b0, b1]) == [AlphabetByte(b0 >> 2), AlphabetByte(((b0 & 3) << 4) | (b1 >> 4)),
                                 AlphabetByte((b1 & 15) << 2), Pad]
  {
    var src := [b0, b1];
    assert |src| == 2 && src[0] == b0 && src[1] == b1;
  }

  /** A final quantum with one padding byte decodes to its two bytes. */
  lemma DecodeTailTwo(b0: byte, b1: byte)
    ensures var e := Encode([b0, b1]); |e| == 4 && DecodeLast(e[0], e[1], e[2], e[3]) == Ok([b0, b1])
  {
    var s0, s1, s2 := b0 >> 2, ((b0 & 3) << 4) | (b1 >> 4), (b1 & 15) << 2;
    TailBitsTwo(b0, b1);
    EncodeTwo(b0, b1);
    DecodeLastTwo(s0, s1, s2);
  }

  /** A middle quantum that decodes is followed by the decoding of the
      rest: its three bytes come first, and an error in the rest is the
      error of the whole. */
  lemma DecodeQuantaFront(g: seq<byte>, rest: seq<byte>, head: seq<byte>)
    requires |g| == 4 && |rest| % 4 == 0 && |rest| > 0
    requires DecodeQuantum(g[0], g[1], g[2], g[3]) == Ok(head)
    ensures DecodeQuanta(rest).Ok? ==> DecodeQuanta(g + rest) == Ok(head + DecodeQuanta(rest).value)
    ensures DecodeQuanta(rest).Err? ==> DecodeQuanta(g + rest) == DecodeQuanta(rest)
  {
    var q := g + rest;
    assert q[0] == g[0] && q[1] == g[1] && q[2] == g[2] && q[3] == g[3];
    assert q[4..] == rest;
  }

  /** Three bytes encode to one quantum, which the decoder, seeing it last,
      gives back. */
  lemma DecodeEncodeThree(b: seq<byte>)
    requires |b| == 3
    ensures DecodeQuanta(Encode(b)) == Ok(b)
  {
    DecodeGroup(b[0], b[1], b[2]);
    assert Encode(b) == EncodeGroup(b[0], b[1], b[2]) + Encode(b[3..]);
    assert b[3..] == [];
    assert b == [b[0], b[1], b[2]];
  }

  lemma SplitThree<T>(b: seq<T>)
    requires |b| >= 3
    ensures b == [b[0], b[1], b[2]] + b[3..]
  {
  }

  /** The first three bytes come back from the first quantum, ahead of what
      the rest of the encoding decodes to. */
  lemma DecodeEncodeFront(b: seq<byte>)
    requires |b| > 3
    requires DecodeQuanta(Encode(b[3..])) == Ok(b[3..])
    ensures DecodeQuanta(Encode(b)) == Ok(b)
  {
    var g := EncodeGroup(b[0], b[1], b[2]);
    var rest := Encode(b[3..]);
    assert Encode(b) == g + rest;
    DecodeGroup(b[0], b[1], b[2]);
    DecodeQuantaFront(g, rest, [b[0], b[1], b[2]]);
    SplitThree(b);
  }

  lemma {:induction false} DecodeQuantaEncode(b: seq<byte>)
    ensures DecodeQuanta(Encode(b)) == Ok(b)
    decreases |b|
  {
    if |b| == 1 {
      DecodeTailOne(b[0]);
      assert b == [b[0]];
    } else if |b| == 2 {
      DecodeTailTwo(b[0], b[1]);
      assert b == [b[0], b[1]];
    } else if |b| == 3 {
      DecodeEncodeThree(b);
    } else if |b| > 3 {
      DecodeQuantaEncode(b[3..]);
      DecodeEncodeFront(b);
    }
  }

  /** `decode(encode(b)) == b` for every byte sequence. */
  lemma DecodeEncode(b: seq<byte>)
    ensures Decode(Encode(b)) == Ok(b)
  {
    var e := Encode(b);
    forall i | 0 <= i < |e| ensures e[i] != 10 && e[i] != 13 {
      assert IsEncodedByte(e[i]);
    }
    StripNewlinesNone(e);
    DecodeQuantaEncode(b);
  }

  // ---------------------------------------------------------------------------
  // What an instance computes
  // ---------------------------------------------------------------------------

  /** The result of `Encrypt` for key bytes `key` and IV `iv`. */
  function Encryption(aes: Aes, key: seq<byte>, iv: Block, data: seq<byte>): Result<seq<byte>, CryptoError>
  {
    if !ValidKeyLength(|key|) then Err(KeySizeError(|key|))
    else Ok(Encode(CfbEncrypt(aes, key, iv, data)))
  }

  /** The result of `Decrypt` for key bytes `key` and IV `iv`. */
  function Decryption(aes: Aes, key: seq<byte>, iv: Block, encryption: seq<byte>): Result<seq<byte>, CryptoError>
  {
    if !ValidKeyLength(|key|) then Err(KeySizeError(|key|))
    else
      match Decode(encryption)
      case Err(e) => Err(e)
      case Ok(cipherText) => Ok(CfbDecrypt(aes, key, iv, cipherText))
  }

  /** Round trip: with a valid key, decrypting an encryption gives the data
      back, for every block function and IV. */
  lemma DecryptionEncryption(aes: Aes, key: seq<byte>, iv: Block, data: seq<byte>)
    requires ValidKeyLength(|key|)
    ensures Encryption(aes, key, iv, data).Ok?
    ensures Decryption(aes, key, iv, Encryption(aes, key, iv, data).value) == Ok(data)
  {
    var c := CfbEncrypt(aes, key, iv, data);
    DecodeEncode(c);
    CfbDecryptEncrypt(aes, key, iv, data);
  }

  /** The raw ciphertext is as long as the plaintext: the encryption is the
      Base64 text of exactly |data| bytes. */
  lemma EncryptionLength(aes: Aes, key: seq<byte>, iv: Block, data: seq<byte>)
    requires ValidKeyLength(|key|)
    ensures Encryption(aes, key, iv, data).Ok?
    ensures Decode(Encryption(aes, key, iv, data).value).Ok?
    ensures |Decode(Encryption(aes, key, iv, data).value).value| == |data|
    ensures |Encryption(aes, key, iv, data).value| == 4 * ((|data| + 2) / 3)
  {
    DecodeEncode(CfbEncrypt(aes, key, iv, data));
  }

  /** `Decrypt` fails exactly when the key is unusable or the input is not
      Base64; there is no integrity check, so any well-formed input decrypts,
      to as many bytes as it decodes to. */
  lemma DecryptionFailsOnlyOnFormat(aes: Aes, key: seq<byte>, iv: Block, t: seq<byte>)
    ensures Decryption(aes, key, iv, t).Err? <==> !ValidKeyLength(|key|) || Decode(t).Err?
    ensures Decryption(aes, key, iv, t).Ok? ==> |Decryption(aes, key, iv, t).value| == |Decode(t).value|
    ensures Decryption(aes, key, iv, t).Ok? ==>
      Encryption(aes, key, iv, Decryption(aes, key, iv, t).value) == Ok(Encode(Decode(t).value))
  {
    if ValidKeyLength(|key|) && Decode(t).Ok? {
      CfbEncryptDecrypt(aes, key, iv, Decode(t).value);
    }
  }

  /** An instance of the source's `lc`: the secret string, the IV (the field
      the source calls `size`) and the block function it keys. */
  class LankyCrypto {
    const secret: string
    const size: Block
    const aes: Aes

    /** `NewLankyCrypto`: the 16 random bytes of `crypto/rand` are the
        parameter `randomBlock`. */
    constructor (secret: string, randomBlock: Block, aes: Aes)
      ensures this.secret == secret && size == randomBlock && this.aes == aes
    {
      this.secret := secret;
      size := randomBlock;
      this.aes := aes;
    }

    /** `[]byte(c.secret)`: the key bytes handed to `aes.NewCipher`. */
    function Key(): seq<byte>
    {
      Utf8Encode(secret)
    }

    method Encrypt(data: seq<byte>) returns (r: Result<seq<byte>, CryptoError>)
      ensures r == Encryption(aes, Key(), size, data)
      ensures r.Err? <==> !ValidKeyLength(|Key()|)
    {
      var key := Key();
      if !ValidKeyLength(|key|) {
        return Err(KeySizeError(|key|));
      }
      var cipherText := new byte[|data|];
      XorKeyStream(aes, key, size, cipherText, data, false);
      return Ok(Encode(cipherText[..]));
    }

    /** `[]byte(enc)` of an encryption is the same bytes. */
    method EncryptToBytes(data: seq<byte>) returns (r: Result<seq<byte>, CryptoError>)
      ensures r == Encryption(aes, Key(), size, data)
    {
      var enc := Encrypt(data);
      if enc.Err? {
        return Err(enc.error);
      }
      return Ok(enc.value);
    }

    method Decrypt(encryption: seq<byte>) returns (r: Result<seq<byte>, CryptoError>)
      ensures r == Decryption(aes, Key(), size, encryption)
      ensures r.Err? <==> !ValidKeyLength(|Key()|) || Decode(encryption).Err?
    {
      var key := Key();
      if !ValidKeyLength(|key|) {
        return Err(KeySizeError(|key|));
      }
      var cipherText := Decode(encryption);
      if cipherText.Err? {
        return Err(cipherText.error);
      }
      var plainText := new byte[|cipherText.value|];
      XorKeyStream(aes, key, size, plainText, cipherText.value, true);
      return Ok(plainText[..]);
    }

    /** `string(encryption)` keeps the bytes, so this is `Decrypt` on them. */
    method DecryptFromBytes(encryption: seq<byte>) returns (r: Result<seq<byte>, CryptoError>)
      ensures r == Decryption(aes, Key(), size, encryption)
    {
      var dcr := Decrypt(encryption);
      if dcr.Err? {
        return Err(dcr.error);
      }
      return Ok(dcr.value);
    }
  }
}
