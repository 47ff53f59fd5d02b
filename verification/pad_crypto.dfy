/**
 * lib/pad_crypto.c: the repeating-key XOR cipher, the DJB2 hash
 * (`h * 33 + c` modulo 2^32, seeded with 5381), the hash-chained key
 * derivation, the hash "signature" and the memory wipe.
 *
 * A C pointer that may be NULL is an `Option` (read-only input) or an
 * `array?` (buffer written in place); a length argument is the length of
 * the sequence it describes, or `len` alongside an array it must fit.
 * Words are stored little-endian, as on the targets the tools run on.
 */
module PadCrypto {
  import opened Wrappers
  import opened Bits

  const WORD: int := 0x1_0000_0000

  /** The seed of the DJB2 hash. */
  const HASH_SEED: u32 := 5381

  // ---------------------------------------------------------- pad_xor_cipher

  /** `d` with byte `i` XORed with key byte `i mod |key|`. */
  function Ciphered(d: seq<u8>, key: seq<u8>): (r: seq<u8>)
    requires |key| > 0
    ensures |r| == |d|
  {
    seq(|d|, i requires 0 <= i < |d| => Xor8(d[i], key[i % |key|]))
  }

  /** The cipher is an involution: applying it twice with the same key restores the data. */
  lemma CipheredTwice(d: seq<u8>, key: seq<u8>)
    requires |key| > 0
    ensures Ciphered(Ciphered(d, key), key) == d
  {
    forall i | 0 <= i < |d|
      ensures Ciphered(Ciphered(d, key), key)[i] == d[i]
    {
      Xor8Twice(d[i], key[i % |key|]);
    }
  }

  /**
   * `pad_xor_cipher`: -1 and no change when `data` or `key` is NULL or a
   * length is 0; otherwise `data[0..length)` is XORed with the repeating key.
   */
  method XorCipher(data: array?<u8>, length: nat, key: Option<seq<u8>>) returns (r: int)
    requires data != null ==> length <= data.Length
    modifies data
    ensures r == -1 <==> data == null || key.None? || length == 0 || |key.value| == 0
    ensures r == -1 || r == 0
    ensures r == -1 && data != null ==> data[..] == old(data[..])
    ensures r == 0 ==> data[..length] == Ciphered(old(data[..length]), key.value)
    ensures r == 0 ==> data[length..] == old(data[length..])
  {
    if data == null || key.None? || length == 0 || |key.value| == 0 {
      return -1;
    }
    var k := key.value;
    for i := 0 to length
      invariant forall j :: 0 <= j < i ==> data[j] == Xor8(old(data[j]), k[j % |k|])
      invariant forall j :: i <= j < data.Length ==> data[j] == old(data[j])
    {
      data[i] := Xor8(data[i], k[i % |k|]);
    }
    return 0;
  }

  // --------------------------------------------------------- pad_simple_hash

  /** DJB2 continued from `seed` over the bytes of `data`, each step `h * 33 + c` modulo 2^32. */
  function HashFrom(seed: u32, data: seq<u8>): u32 {
    if data == [] then seed
    else ((HashFrom(seed, data[..|data| - 1]) as int * 33 + data[|data| - 1] as int) % WORD) as u32
  }

  /** What `pad_simple_hash` returns: 0 for NULL or empty input, else DJB2 from 5381. */
  function SimpleHashOf(data: Option<seq<u8>>): u32 {
    if data.None? || data.value == [] then 0 else HashFrom(HASH_SEED, data.value)
  }

  /** Hashing a concatenation continues from the hash of its first part. */
  lemma {:induction false} HashFromAppend(seed: u32, a: seq<u8>, b: seq<u8>)
    ensures HashFrom(seed, a + b) == HashFrom(HashFrom(seed, a), b)
  {
    if b == [] {
      assert a + b == a;
    } else {
      assert (a + b)[..|a + b| - 1] == a + b[..|b| - 1];
      assert (a + b)[|a + b| - 1] == b[|b| - 1];
      HashFromAppend(seed, a, b[..|b| - 1]);
    }
  }

  /** A single byte `c` hashes to `5381 * 33 + c`. */
  lemma HashOfOneByte(c: u8)
    ensures SimpleHashOf(Some([c])) as int == 177573 + c as int
  {
    assert [c][..0] == [];
    assert HashFrom(HASH_SEED, [c]) as int == (5381 * 33 + c as int) % WORD;
  }

  /** `(h << 5) + h` then `+ c`, each in 32-bit unsigned arithmetic, is `h * 33 + c` modulo 2^32. */
  lemma ShiftAddIsTimes33(h: int, c: int)
    ensures (((h * 32) % WORD + h) % WORD + c) % WORD == (h * 33 + c) % WORD
  {
    var s := (h * 32) % WORD;
    assert h * 32 == (h * 32 / WORD) * WORD + s;
    var t := (s + h) % WORD;
    assert s + h == ((s + h) / WORD) * WORD + t;
    assert h * 33 + c == t + c + (h * 32 / WORD + (s + h) / WORD) * WORD;
    ModAddMultiple(t + c, h * 32 / WORD + (s + h) / WORD);
  }

  lemma ModAddMultiple(x: int, k: int)
    ensures (x + k * WORD) % WORD == x % WORD
  {
  }

  /** `pad_simple_hash`: the shift-and-add loop over the input bytes. */
  method SimpleHash(data: Option<seq<u8>>) returns (hash: u32)
    ensures hash == SimpleHashOf(data)
  {
    if data.None? || data.value == [] {
      return 0;
    }
    var d := data.value;
    hash := HASH_SEED;
    for i := 0 to |d|
      invariant hash == HashFrom(HASH_SEED, d[..i])
    {
      var h := hash as int;
      ShiftAddIsTimes33(h, d[i] as int);
      assert d[..i + 1][..i] == d[..i];
      hash := ((((h * 32) % WORD + h) % WORD + d[i] as int) % WORD) as u32;
    }
    assert d[..|d|] == d;
  }

  // ------------------------------------------------- word <-> bytes (LE)

  /** The four bytes of `h` in memory, least significant first. */
  function LittleEndian(h: u32): (bs: seq<u8>)
    ensures |bs| == 4
  {
    [(h % 0x100) as u8, (h / 0x100 % 0x100) as u8, (h / 0x1_0000 % 0x100) as u8, (h / 0x100_0000) as u8]
  }

  /** The word `*(uint32_t*)bs` reads from four bytes. */
  function FromLittleEndian(bs: seq<u8>): (h: u32)
    requires |bs| == 4
  {
    (bs[0] as int + 0x100 * bs[1] as int + 0x1_0000 * bs[2] as int + 0x100_0000 * bs[3] as int) as u32
  }

  lemma FromToLittleEndian(h: u32)
    ensures FromLittleEndian(LittleEndian(h)) == h
  {
    var x := h as int;
    var x1, x2 := x / 0x100, x / 0x1_0000;
    assert x == x % 0x100 + 0x100 * x1;
    assert x1 == x1 % 0x100 + 0x100 * x2;
    assert x / 0x1_0000 == x2 && x2 == x2 % 0x100 + 0x100 * (x / 0x100_0000);
    assert x1 / 0x100 == x2 && x2 / 0x100 == x / 0x100_0000;
  }

  lemma ToFromLittleEndian(bs: seq<u8>)
    requires |bs| == 4
    ensures LittleEndian(FromLittleEndian(bs)) == bs
  {
    var h := FromLittleEndian(bs) as int;
    var b0, b1, b2, b3 := bs[0] as int, bs[1] as int, bs[2] as int, bs[3] as int;
    assert h == b0 + 0x100 * (b1 + 0x100 * (b2 + 0x100 * b3));
    assert h % 0x100 == b0 && h / 0x100 == b1 + 0x100 * (b2 + 0x100 * b3);
    var h1 := h / 0x100;
    assert h1 % 0x100 == b1 && h1 / 0x100 == b2 + 0x100 * b3;
    var h2 := h1 / 0x100;
    assert h2 % 0x100 == b2 && h2 / 0x100 == b3;
    assert h / 0x1_0000 == h2 && h / 0x100_0000 == b3;
  }

  // --------------------------------------------------------- pad_derive_key

  /** The chained hash after `k` rounds, from the password hash `h0`. */
  function Chain(h0: u32, salt: seq<u8>, k: nat): u32 {
    if k == 0 then h0
    else
      var h := HashFrom(HASH_SEED, LittleEndian(Chain(h0, salt, k - 1)));
      if k - 1 < |salt| then Xor32(h, salt[(k - 1) % |salt|] as u32) else h
  }

  /** The `n` key bytes derived from `password` and `salt`: byte `i` is the low byte of round `i + 1`. */
  function DerivedKey(password: seq<u8>, salt: seq<u8>, n: nat): (key: seq<u8>)
    ensures |key| == n
  {
    seq(n, i requires 0 <= i < n => (Chain(SimpleHashOf(Some(password)), salt, i + 1) % 0x100) as u8)
  }

  /** Only the first `k` salt bytes take part in the first `k` rounds. */
  lemma {:induction false} ChainSaltPrefix(h0: u32, salt: seq<u8>, n: nat, k: nat)
    requires k <= n <= |salt|
    ensures Chain(h0, salt, k) == Chain(h0, salt[..n], k)
  {
    if k > 0 {
      ChainSaltPrefix(h0, salt, n, k - 1);
      ModBelow(k - 1, |salt|);
      ModBelow(k - 1, n);
      assert salt[..n][k - 1] == salt[k - 1];
    }
  }

  lemma ModBelow(a: nat, m: nat)
    requires a < m
    ensures a % m == a
  {
  }

  /** A key of `n` bytes depends on the salt only through its first `n` bytes. */
  lemma DerivedKeyUsesSaltPrefix(password: seq<u8>, salt: seq<u8>, n: nat)
    requires n <= |salt|
    ensures DerivedKey(password, salt, n) == DerivedKey(password, salt[..n], n)
  {
    forall i | 0 <= i < n
      ensures DerivedKey(password, salt, n)[i] == DerivedKey(password, salt[..n], n)[i]
    {
      ChainSaltPrefix(SimpleHashOf(Some(password)), salt, n, i + 1);
    }
  }

  /**
   * `pad_derive_key`: -1 when `password`, `salt` or `key` is NULL or
   * `key_len` is 0; otherwise `key[0..key_len)` is zeroed and then filled
   * with the derived bytes, and nothing else is written.
   */
  method DeriveKey(password: Option<seq<u8>>, salt: Option<seq<u8>>, key: array?<u8>, keyLen: nat)
    returns (r: int)
    requires key != null ==> keyLen <= key.Length
    modifies key
    ensures r == -1 <==> password.None? || salt.None? || key == null || keyLen == 0
    ensures r == -1 || r == 0
    ensures r == -1 && key != null ==> key[..] == old(key[..])
    ensures r == 0 ==> key[..keyLen] == DerivedKey(password.value, salt.value, keyLen)
    ensures r == 0 ==> key[keyLen..] == old(key[keyLen..])
  {
    if password.None? || salt.None? || key == null || keyLen == 0 {
      return -1;
    }
    MemWipe(key, keyLen);
    var s := salt.value;
    var h0 := SimpleHash(password);
    var hash := h0;
    for i := 0 to keyLen
      invariant hash == Chain(h0, s, i)
      invariant forall j :: 0 <= j < i ==> key[j] == DerivedKey(password.value, s, keyLen)[j]
      invariant key[keyLen..] == old(key[keyLen..])
    {
      hash := SimpleHash(Some(LittleEndian(hash)));
      if i < |s| {
        hash := Xor32(hash, s[i % |s|] as u32);
      }
      key[i] := (hash % 0x100) as u8;
    }
    return 0;
  }

  // ------------------------------------------ signature generate / verify

  /**
   * `pad_verify_signature`: 0 for a NULL or empty input or a signature
   * shorter than four bytes; otherwise 1 exactly when the word stored in
   * the first four signature bytes is the hash of the data.
   */
  function VerifySignature(data: Option<seq<u8>>, signature: Option<seq<u8>>, publicKey: Option<seq<u8>>): (r: int)
    ensures r == 0 || r == 1
    ensures r == 1 <==> data.Some? && signature.Some? && publicKey.Some? && data.value != []
                        && publicKey.value != [] && |signature.value| >= 4
                        && signature.value[..4] == LittleEndian(SimpleHashOf(data))
  {
    if data.None? || signature.None? || publicKey.None? || data.value == [] || signature.value == []
       || publicKey.value == [] then 0
    else if |signature.value| < 4 then 0
    else
      var stored := signature.value[..4];
      FromToLittleEndian(SimpleHashOf(data));
      ToFromLittleEndian(stored);
      if SimpleHashOf(data) == FromLittleEndian(stored) then 1 else 0
  }

  /**
   * `pad_generate_signature`: -1 when a pointer is NULL, the data is empty
   * or `sig_len` is below four; otherwise the data hash is written into
   * `signature[0..4)` and nothing else changes.  The private key is only
   * checked for NULL.
   */
  method GenerateSignature(data: Option<seq<u8>>, signature: array?<u8>, sigLen: nat, privateKey: Option<seq<u8>>)
    returns (r: int)
    requires signature != null ==> sigLen <= signature.Length
    modifies signature
    ensures r == -1 <==> data.None? || signature == null || privateKey.None? || data.value == [] || sigLen < 4
    ensures r == -1 || r == 0
    ensures r == -1 && signature != null ==> signature[..] == old(signature[..])
    ensures r == 0 ==> signature[..4] == LittleEndian(SimpleHashOf(data))
    ensures r == 0 ==> signature[4..] == old(signature[4..])
  {
    if data.None? || signature == null || privateKey.None? || data.value == [] || sigLen < 4 {
      return -1;
    }
    var hash := SimpleHash(data);
    var bytes := LittleEndian(hash);
    signature[0] := bytes[0];
    signature[1] := bytes[1];
    signature[2] := bytes[2];
    signature[3] := bytes[3];
    return 0;
  }

  /** A signature made by `GenerateSignature` verifies against the same data with any non-empty key. */
  lemma SignThenVerify(data: seq<u8>, signature: seq<u8>, publicKey: seq<u8>)
    requires data != [] && publicKey != [] && |signature| >= 4
    requires signature[..4] == LittleEndian(SimpleHashOf(Some(data)))
    ensures VerifySignature(Some(data), Some(signature), Some(publicKey)) == 1
  {
  }

  // ------------------------------------------------------------ pad_memwipe

  /** `pad_memwipe`: zeroes `ptr[0..len)`; a NULL pointer or a zero length writes nothing. */
  method MemWipe(ptr: array?<u8>, len: nat)
    requires ptr != null ==> len <= ptr.Length
    modifies ptr
    ensures ptr != null ==> forall i :: 0 <= i < len ==> ptr[i] == 0
    ensures ptr != null ==> ptr[len..] == old(ptr[len..])
  {
    if ptr == null || len == 0 {
      return;
    }
    for i := 0 to len
      invariant forall j :: 0 <= j < i ==> ptr[j] == 0
      invariant ptr[len..] == old(ptr[len..])
    {
      ptr[i] := 0;
    }
  }
}
