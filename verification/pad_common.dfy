/**
 * lib/pad_common.c: bounded string copy, the table-driven CRC-32 used for
 * firmware checksums, and the allocation helpers.
 */
module PadCommon {
  import opened Wrappers
  import Text
  import opened Bits
  import opened Crc32Spec

  // ------------------------------------------------------------ pad_strncpy

  /** The bytes `strncpy(dest, src, n - 1)` followed by `dest[n - 1] = 0` leave in `dest[0..n)`. */
  function CopiedField(src: string, n: nat): (buf: string)
    requires n > 0
    ensures |buf| == n
  {
    var kept := Text.Truncate(src, n - 1);
    kept + seq(n - 1 - |kept|, _ => '\0') + ['\0']
  }

  /** The C string a NUL-terminated buffer holds: its characters before the first NUL. */
  function CString(buf: string): (s: string)
    ensures s <= buf && '\0' !in s
    ensures |s| < |buf| ==> buf[|s|] == '\0'
  {
    if buf == [] || buf[0] == '\0' then [] else [buf[0]] + CString(buf[1..])
  }

  /** After a successful copy `dest` holds `src` cut to `n - 1` characters, NUL-terminated at `n - 1`. */
  lemma {:induction false} CopiedFieldHoldsPrefix(src: string, n: nat)
    requires n > 0 && '\0' !in src
    ensures CString(CopiedField(src, n)) == Text.Truncate(src, n - 1)
    ensures CopiedField(src, n)[n - 1] == '\0'
  {
    var kept := Text.Truncate(src, n - 1);
    var buf := CopiedField(src, n);
    assert buf[..|kept|] == kept;
    assert buf[|kept|] == '\0';
    forall j | 0 <= j < |kept| ensures buf[j] != '\0' {
      assert buf[j] == src[j];
    }
    CStringOfTerminated(buf, |kept|);
  }

  lemma {:induction false} CStringOfTerminated(buf: string, k: nat)
    requires k < |buf| && buf[k] == '\0'
    requires forall j :: 0 <= j < k ==> buf[j] != '\0'
    ensures CString(buf) == buf[..k]
    decreases k
  {
    if k > 0 {
      assert buf[0] != '\0';
      CStringOfTerminated(buf[1..], k - 1);
    }
  }

  /**
   * `pad_strncpy`: -1 and no write when a pointer is NULL or the size is 0;
   * otherwise `dest[0..dest_size)` becomes `CopiedField(src, dest_size)`.
   * `src` is a C string, so it holds no NUL.
   */
  method StrNCopy(dest: array?<char>, src: Option<string>, destSize: nat) returns (r: int)
    requires dest != null ==> destSize <= dest.Length
    requires src.Some? ==> '\0' !in src.value
    modifies dest
    ensures r == -1 || r == 0
    ensures r == -1 <==> dest == null || src.None? || destSize == 0
    ensures r == -1 && dest != null ==> dest[..] == old(dest[..])
    ensures r == 0 ==> dest[..destSize] == CopiedField(src.value, destSize)
    ensures r == 0 ==> dest[destSize..] == old(dest[destSize..])
  {
    if dest == null || src.None? || destSize == 0 {
      return -1;
    }
    var s := src.value;
    var i := 0;
    while i < destSize - 1
      invariant 0 <= i <= destSize - 1
      invariant forall k :: 0 <= k < i ==> dest[k] == (if k < |s| then s[k] else '\0')
      invariant dest[destSize..] == old(dest[destSize..])
    {
      dest[i] := if i < |s| then s[i] else '\0';
      i := i + 1;
    }
    dest[destSize - 1] := '\0';
    forall k | 0 <= k < destSize
      ensures dest[..destSize][k] == CopiedField(s, destSize)[k]
    {
      var kept := Text.Truncate(s, destSize - 1);
      if k < |kept| {
        assert kept[k] == s[k];
      }
    }
    return 0;
  }

  // --------------------------------------------------------------- pad_crc32

  /** Every slot of `t` holds its table entry. */
  ghost predicate TableReady(t: array<u32>)
    reads t
  {
    t.Length == 256 && forall n :: 0 <= n < 256 ==> t[n] as nat == TableEntry(n)
  }

  /**
   * The function-local statics of `pad_crc32`: the 256-entry table and the
   * flag saying it has been filled.
   */
  class Crc32Engine {
    var table: array<u32>
    var initialized: bool

    ghost predicate Valid()
      reads this, table
    {
      table.Length == 256 && (initialized ==> TableReady(table))
    }

    /** Static storage starts zeroed and not initialized. */
    constructor ()
      ensures Valid() && !initialized && fresh(table)
    {
      table := new u32[256](_ => 0);
      initialized := false;
    }

    /** The table-filling loop of `pad_crc32`: slot `i` gets `i` after eight shifts. */
    method FillTable()
      requires table.Length == 256
      modifies table
      ensures TableReady(table)
    {
      for i := 0 to 256
        invariant forall n :: 0 <= n < i ==> table[n] as nat == TableEntry(n)
      {
        var c: u32 := i as u32;
        for j := 0 to ROUNDS
          invariant c as nat == Steps(i, j)
        {
          if c % 2 == 1 {
            c := Xor32(POLY as u32, c / 2);
          } else {
            c := c / 2;
          }
        }
        table[i] := c;
      }
    }

    /**
     * `pad_crc32`: fills the table on the first call only, then runs the
     * table-driven loop. The result is the bit-at-a-time CRC-32.
     */
    method Checksum(data: seq<u8>) returns (crc: u32)
      requires Valid()
      modifies this, table
      ensures Valid() && initialized && table == old(table)
      ensures old(initialized) ==> table[..] == old(table[..])
      ensures crc as nat == Crc32(data)
    {
      if !initialized {
        FillTable();
        initialized := true;
      }
      crc := 0xFFFF_FFFF;
      for n := 0 to |data|
        invariant crc as nat == Register(ALL_ONES, data[..n])
        invariant Valid() && initialized && table == old(table)
        invariant old(initialized) ==> table[..] == old(table[..])
      {
        var idx := Xor32(crc, data[n] as u32) % 0x100;
        TableUpdateIsBitwise(crc as nat, data[n]);
        assert data[..n + 1][..n] == data[..n];
        crc := Xor32(table[idx], crc / 0x100);
      }
      assert data[..|data|] == data;
      crc := Xor32(crc, 0xFFFF_FFFF);
    }
  }

  // ------------------------------------------------- pad_malloc / pad_free

  /**
   * `pad_malloc`: NULL for a zero size; otherwise a fresh block of `size`
   * bytes when the C heap (`heapOk`) can supply one, NULL when it cannot.
   */
  method Malloc(size: nat, heapOk: bool) returns (p: array?<u8>)
    ensures size == 0 ==> p == null
    ensures size > 0 ==> (p != null <==> heapOk)
    ensures p != null ==> fresh(p) && p.Length == size
  {
    if size == 0 || !heapOk {
      return null;
    }
    p := new u8[size];
  }
}
