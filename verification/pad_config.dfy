/**
 * lib/pad_config.c: the key/value configuration store.  The global list
 * `config_head` is the sequence `items` of a `ConfigStore`, head first;
 * each node holds its name in a 64-byte field and its value in a 256-byte
 * field, both filled by `pad_strncpy`.  File contents are parameters:
 * `contents` is what `fopen` would read (`None` when it cannot be opened),
 * and `Save` returns the text it writes.
 */
module PadConfig {
  import opened Wrappers
  import opened Bits
  import Text
  import PadCommon

  const NAME_SIZE: nat := 64
  const VALUE_SIZE: nat := 256
  /** The `fgets` buffer of `pad_config_load`. */
  const LINE_SIZE: nat := 512
  /** `sizeof(config_item)` on a 64-bit target: two fields and a pointer. */
  const ITEM_SIZE: nat := 64 + 256 + 8

  datatype Item = Item(name: string, value: string)

  /** What a field of `size` bytes holds after `pad_strncpy(field, s, size)`. */
  function Field(s: string, size: nat): (f: string)
    requires size > 0
    ensures |f| < size && f <= s
    ensures |s| < size ==> f == s
  {
    Text.Truncate(s, size - 1)
  }

  /** `Field` is the C string `pad_strncpy` leaves behind. */
  lemma FieldIsStrNCopy(s: string, size: nat)
    requires size > 0 && '\0' !in s
    ensures Field(s, size) == PadCommon.CString(PadCommon.CopiedField(s, size))
  {
    PadCommon.CopiedFieldHoldsPrefix(s, size);
  }

  // ------------------------------------------------------ list semantics

  /** The first node whose stored name equals `key` (the `strcmp` match), walking from the head. */
  function Find(items: seq<Item>, key: string): (r: Option<nat>)
    ensures r.Some? ==> r.value < |items| && items[r.value].name == key
    ensures r.Some? ==> forall j :: 0 <= j < r.value ==> items[j].name != key
    ensures r.None? ==> forall j :: 0 <= j < |items| ==> items[j].name != key
  {
    if items == [] then None
    else if items[0].name == key then Some(0)
    else match Find(items[1..], key)
      case None => None
      case Some(i) => Some(i + 1)
  }

  /** `Find` is determined by the names: the first position holding `key`. */
  lemma FindAt(items: seq<Item>, key: string, i: nat)
    requires i < |items| && items[i].name == key
    requires forall j :: 0 <= j < i ==> items[j].name != key
    ensures Find(items, key) == Some(i)
  {
  }

  lemma FindNone(items: seq<Item>, key: string)
    requires forall j :: 0 <= j < |items| ==> items[j].name != key
    ensures Find(items, key) == None
  {
  }

  /** What `pad_config_get_string` returns: the value of the first match, else `default`. */
  function Lookup(items: seq<Item>, key: Option<string>, default: Option<string>): Option<string> {
    if key.None? then default
    else match Find(items, key.value)
      case None => default
      case Some(i) => Some(items[i].value)
  }

  /**
   * The list after `pad_config_set_string(key, value)` with both pointers
   * non-NULL: the first match gets the new value in place; otherwise, when
   * the allocation succeeds (`heapOk`), a new node is prepended.
   */
  function Assign(items: seq<Item>, key: string, value: string, heapOk: bool): seq<Item> {
    match Find(items, key)
      case Some(i) => items[i := Item(items[i].name, Field(value, VALUE_SIZE))]
      case None => if heapOk then [Item(Field(key, NAME_SIZE), Field(value, VALUE_SIZE))] + items else items
  }

  /** The list after `pad_config_remove(key)`: the first match unlinked, the others in order. */
  function Removed(items: seq<Item>, key: string): seq<Item> {
    match Find(items, key)
      case Some(i) => items[..i] + items[i + 1..]
      case None => items
  }

  /** No two nodes carry the same name. */
  predicate UniqueNames(items: seq<Item>) {
    forall i, j :: 0 <= i < j < |items| ==> items[i].name != items[j].name
  }

  /** Every node's fields fit their buffers. */
  predicate FieldsFit(items: seq<Item>) {
    forall i :: 0 <= i < |items| ==> |items[i].name| < NAME_SIZE && |items[i].value| < VALUE_SIZE
  }

  /** A key shorter than its field is found after it is set, with the value cut to 255 characters. */
  lemma GetAfterSet(items: seq<Item>, key: string, value: string, heapOk: bool, default: Option<string>)
    requires |key| < NAME_SIZE
    requires Find(items, key).Some? || heapOk
    ensures Lookup(Assign(items, key, value, heapOk), Some(key), default) == Some(Field(value, VALUE_SIZE))
  {
    var after := Assign(items, key, value, heapOk);
    if Find(items, key).Some? {
      var i := Find(items, key).value;
      FindAt(after, key, i);
    } else {
      FindAt(after, key, 0);
    }
  }

  /** Setting a key that is present overwrites its value in place and adds no node. */
  lemma SetExistingAddsNoNode(items: seq<Item>, key: string, value: string, heapOk: bool)
    requires Find(items, key).Some?
    ensures |Assign(items, key, value, heapOk)| == |items|
    ensures forall j :: 0 <= j < |items| ==> Assign(items, key, value, heapOk)[j].name == items[j].name
    ensures forall j :: 0 <= j < |items| && j != Find(items, key).value ==> Assign(items, key, value, heapOk)[j] == items[j]
  {
  }

  /** Setting one key leaves the lookup of any other key unchanged, unless the stored name collides with it. */
  lemma SetLeavesOthers(items: seq<Item>, key: string, value: string, heapOk: bool, other: string, default: Option<string>)
    requires other != key && other != Field(key, NAME_SIZE)
    ensures Lookup(Assign(items, key, value, heapOk), Some(other), default) == Lookup(items, Some(other), default)
  {
    var after := Assign(items, key, value, heapOk);
    if Find(items, key).Some? {
      var i := Find(items, key).value;
      assert forall j :: 0 <= j < |items| ==> after[j].name == items[j].name;
      SameNamesSameFind(items, after, other);
      if Find(items, other).Some? {
        assert Find(items, other).value != i;
      }
    } else if heapOk {
      assert forall j :: 1 <= j < |after| ==> after[j] == items[j - 1];
      if Find(items, other).Some? {
        FindAt(after, other, Find(items, other).value + 1);
      } else {
        FindNone(after, other);
      }
    }
  }

  lemma {:induction false} SameNamesSameFind(a: seq<Item>, b: seq<Item>, key: string)
    requires |a| == |b| && forall j :: 0 <= j < |a| ==> a[j].name == b[j].name
    ensures Find(a, key) == Find(b, key)
  {
    if a != [] && a[0].name != key {
      SameNamesSameFind(a[1..], b[1..], key);
    }
  }

  /** With keys shorter than the name field, names stay unique. */
  lemma SetKeepsNamesUnique(items: seq<Item>, key: string, value: string, heapOk: bool)
    requires UniqueNames(items) && |key| < NAME_SIZE
    ensures UniqueNames(Assign(items, key, value, heapOk))
  {
    var after := Assign(items, key, value, heapOk);
    match Find(items, key)
      case Some(i) =>
        assert forall j :: 0 <= j < |items| ==> after[j].name == items[j].name;
      case None =>
        if heapOk {
          assert after[0].name == key;
          assert forall j :: 1 <= j < |after| ==> after[j] == items[j - 1];
        }
  }

  /** Every stored field fits its buffer after a set. */
  lemma SetKeepsFieldsFit(items: seq<Item>, key: string, value: string, heapOk: bool)
    requires FieldsFit(items)
    ensures FieldsFit(Assign(items, key, value, heapOk))
  {
    var after := Assign(items, key, value, heapOk);
    if Find(items, key).None? && heapOk {
      assert forall j :: 1 <= j < |after| ==> after[j] == items[j - 1];
    }
  }

  /** After `remove(key)` on a list with unique names, looking `key` up gives the default. */
  lemma GetAfterRemove(items: seq<Item>, key: string, default: Option<string>)
    requires UniqueNames(items)
    ensures Lookup(Removed(items, key), Some(key), default) == default
  {
    var after := Removed(items, key);
    if Find(items, key).Some? {
      var i := Find(items, key).value;
      assert forall j :: 0 <= j < |after| ==> after[j].name != key by {
        forall j | 0 <= j < |after| ensures after[j].name != key {
          if j >= i {
            assert after[j] == items[j + 1];
          }
        }
      }
    }
  }

  /** Removing one key leaves the lookup of every other key unchanged. */
  lemma RemoveLeavesOthers(items: seq<Item>, key: string, other: string, default: Option<string>)
    requires other != key
    ensures Lookup(Removed(items, key), Some(other), default) == Lookup(items, Some(other), default)
  {
    if Find(items, key).Some? {
      DropLeavesOthers(items, Find(items, key).value, other, default);
    }
  }

  /** Unlinking a node whose name is not `other` keeps the lookup of `other`. */
  lemma DropLeavesOthers(items: seq<Item>, i: nat, other: string, default: Option<string>)
    requires i < |items| && items[i].name != other
    ensures Lookup(items[..i] + items[i + 1..], Some(other), default) == Lookup(items, Some(other), default)
  {
    var after := items[..i] + items[i + 1..];
    assert forall j :: 0 <= j < i ==> after[j] == items[j];
    assert forall j :: i <= j < |after| ==> after[j] == items[j + 1];
    var f := Find(items, other);
    if f.None? {
      FindNone(after, other);
    } else if f.value < i {
      FindAt(after, other, f.value);
    } else {
      FindAt(after, other, f.value - 1);
    }
  }

  /** `pad_config_get_int`: the default for a NULL or absent key, else `atoi` of the stored value. */
  function LookupInt(items: seq<Item>, key: Option<string>, default: i32): int {
    match Lookup(items, key, None)
      case None => default as int
      case Some(s) => Text.Atoi(s)
  }

  /** `set_int` then `get_int` on a key shorter than the name field gives the number back. */
  lemma GetIntAfterSetInt(items: seq<Item>, key: string, n: i32, heapOk: bool, default: i32)
    requires |key| < NAME_SIZE
    requires Find(items, key).Some? || heapOk
    ensures LookupInt(Assign(items, key, Text.IntToString(n as int), heapOk), Some(key), default) == n as int
  {
    var text := Text.IntToString(n as int);
    Text.IntToStringShort(n as int);
    GetAfterSet(items, key, text, heapOk, None);
    Text.ParseIntToString(n as int);
  }

  // ------------------------------------------------------------ loading

  /** Where `fgets(line, 512, file)` stops: after the first newline, or after 511 characters. */
  function LineEnd(content: string): (k: nat)
    requires content != []
    ensures 1 <= k <= |content| && k <= LINE_SIZE - 1
    ensures forall i :: 0 <= i < k - 1 ==> content[i] != '\n'
  {
    var nl := Text.IndexOf(content, '\n');
    var upTo := if nl < |content| then nl + 1 else |content|;
    if upTo < LINE_SIZE - 1 then upTo else LINE_SIZE - 1
  }

  /** The successive buffers `fgets` reads from `content`. */
  function Chunks(content: string): (r: seq<string>)
    ensures forall i :: 0 <= i < |r| ==> 1 <= |r[i]| <= LINE_SIZE - 1
    decreases |content|
  {
    if content == [] then [] else [content[..LineEnd(content)]] + Chunks(content[LineEnd(content)..])
  }

  /** The C string left in the buffer once `line[strcspn(line, "\n")] = 0` has cut it. */
  function LineText(chunk: string): (line: string)
    ensures line <= chunk && '\n' !in line && '\0' !in line
    ensures |line| < |chunk| ==> chunk[|line|] == '\n' || chunk[|line|] == '\0'
  {
    if chunk == [] || chunk[0] == '\n' || chunk[0] == '\0' then [] else [chunk[0]] + LineText(chunk[1..])
  }

  /**
   * The `(key, value)` a line contributes: none for an empty line, a line
   * opening with `#` or `;`, or a line without `=`; otherwise the text
   * before and after the first `=`, each with leading spaces and tabs removed.
   */
  function ParseLine(line: string): (r: Option<(string, string)>)
    ensures r.Some? <==> line != [] && line[0] != '#' && line[0] != ';' && '=' in line
    ensures r.Some? ==> exists k :: 0 <= k < |line| && line[k] == '=' && '=' !in line[..k]
                          && r.value == (Text.TrimLeft(line[..k]), Text.TrimLeft(line[k + 1..]))
  {
    if line == [] || line[0] == '#' || line[0] == ';' then None
    else
      var k := Text.IndexOf(line, '=');
      if k == |line| then None
      else
        assert '=' !in line[..k] by {
          forall i | 0 <= i < k ensures line[..k][i] != '=' { }
        }
        Some((Text.TrimLeft(line[..k]), Text.TrimLeft(line[k + 1..])))
  }

  /** The list after the lines of one `fgets` buffer are applied. */
  function ApplyChunk(items: seq<Item>, chunk: string, heapOk: bool): seq<Item> {
    match ParseLine(LineText(chunk))
      case None => items
      case Some(kv) => Assign(items, kv.0, kv.1, heapOk)
  }

  /** The list after `pad_config_load` has applied every buffer, first to last. */
  function LoadChunks(items: seq<Item>, chunks: seq<string>, heapOk: bool): seq<Item>
    decreases |chunks|
  {
    if chunks == [] then items else LoadChunks(ApplyChunk(items, chunks[0], heapOk), chunks[1..], heapOk)
  }

  /** The key a buffer sets, if any. */
  function ChunkKey(chunk: string): Option<string> {
    match ParseLine(LineText(chunk))
      case None => None
      case Some(kv) => Some(kv.0)
  }

  /** Buffers that never set `key` (nor a key stored under the same name) leave its lookup alone. */
  lemma {:induction false} LoadLeavesOthers(items: seq<Item>, chunks: seq<string>, heapOk: bool, key: string, default: Option<string>)
    requires forall c :: c in chunks && ChunkKey(c).Some? ==>
               ChunkKey(c).value != key && Field(ChunkKey(c).value, NAME_SIZE) != key
    ensures Lookup(LoadChunks(items, chunks, heapOk), Some(key), default) == Lookup(items, Some(key), default)
    decreases |chunks|
  {
    if chunks != [] {
      var c := chunks[0];
      assert c in chunks;
      var parsed := ParseLine(LineText(c));
      if parsed.Some? {
        SetLeavesOthers(items, parsed.value.0, parsed.value.1, heapOk, key, default);
      }
      assert forall d :: d in chunks[1..] ==> d in chunks;
      LoadLeavesOthers(ApplyChunk(items, c, heapOk), chunks[1..], heapOk, key, default);
    }
  }

  /** A later line for the same key overwrites an earlier one: the last line that sets a short key wins. */
  lemma {:induction false} LoadLastLineWins(items: seq<Item>, chunks: seq<string>, heapOk: bool, j: nat, key: string, value: string, default: Option<string>)
    requires heapOk && j < |chunks| && |key| < NAME_SIZE
    requires ParseLine(LineText(chunks[j])) == Some((key, value))
    requires forall c :: c in chunks[j + 1..] && ChunkKey(c).Some? ==>
               ChunkKey(c).value != key && Field(ChunkKey(c).value, NAME_SIZE) != key
    ensures Lookup(LoadChunks(items, chunks, heapOk), Some(key), default) == Some(Field(value, VALUE_SIZE))
    decreases j
  {
    var next := ApplyChunk(items, chunks[0], heapOk);
    if j == 0 {
      GetAfterSet(items, key, value, heapOk, default);
      LoadLeavesOthers(next, chunks[1..], heapOk, key, default);
    } else {
      assert chunks[1..][j - 1] == chunks[j];
      assert chunks[1..][j..] == chunks[j + 1..];
      LoadLastLineWins(next, chunks[1..], heapOk, j - 1, key, value, default);
    }
  }

  // ------------------------------------------------------------- saving

  /** The line `fprintf(file, "%s=%s\n", name, value)` writes. */
  function SavedLine(item: Item): string {
    item.name + "=" + item.value + "\n"
  }

  /** The text `pad_config_save` writes: one line per node, from the head. */
  function SavedText(items: seq<Item>): string {
    if items == [] then [] else SavedText(items[..|items| - 1]) + SavedLine(items[|items| - 1])
  }

  // ------------------------------------------------------------ the store

  /** The list `config_head` points to, as one object. */
  class ConfigStore {
    var items: seq<Item>

    /** Invariant: every stored field fits its buffer. */
    ghost predicate Valid()
      reads this
    {
      FieldsFit(items)
    }

    /** The static head starts NULL. */
    constructor ()
      ensures items == [] && Valid()
    {
      items := [];
    }

    /** `pad_config_cleanup`: frees the nodes from the head until the list is empty. */
    method Cleanup() returns (r: int)
      modifies this
      ensures r == 0 && items == [] && Valid()
    {
      while items != []
        decreases |items|
      {
        items := items[1..];
      }
      return 0;
    }

    /** `pad_config_init`: the same as a cleanup. */
    method Init() returns (r: int)
      modifies this
      ensures r == 0 && items == [] && Valid()
    {
      r := Cleanup();
    }

    /**
     * `pad_config_set_string`: -1 for a NULL argument or when a new node
     * cannot be allocated; otherwise 0 and the list becomes `Assign`.
     */
    method SetString(key: Option<string>, value: Option<string>, heapOk: bool) returns (r: int)
      requires Valid()
      modifies this
      ensures Valid()
      ensures r == -1 || r == 0
      ensures r == -1 <==> key.None? || value.None? || (Find(old(items), key.value).None? && !heapOk)
      ensures items == (if key.None? || value.None? then old(items)
                        else Assign(old(items), key.value, value.value, heapOk))
    {
      if key.None? || value.None? {
        return -1;
      }
      SetKeepsFieldsFit(items, key.value, value.value, heapOk);
      var i := 0;
      while i < |items|
        invariant 0 <= i <= |items| && items == old(items)
        invariant forall j :: 0 <= j < i ==> items[j].name != key.value
      {
        if items[i].name == key.value {
          items := items[i := Item(items[i].name, Field(value.value, VALUE_SIZE))];
          return 0;
        }
        i := i + 1;
      }
      var node := PadCommon.Malloc(ITEM_SIZE, heapOk);
      if node == null {
        return -1;
      }
      items := [Item(Field(key.value, NAME_SIZE), Field(value.value, VALUE_SIZE))] + items;
      return 0;
    }

    /** `pad_config_get_string`: walks from the head to the first match. */
    method GetString(key: Option<string>, default: Option<string>) returns (r: Option<string>)
      ensures r == Lookup(items, key, default)
    {
      if key.None? {
        return default;
      }
      var i := 0;
      while i < |items|
        invariant 0 <= i <= |items|
        invariant forall j :: 0 <= j < i ==> items[j].name != key.value
      {
        if items[i].name == key.value {
          return Some(items[i].value);
        }
        i := i + 1;
      }
      return default;
    }

    /** `pad_config_set_int`: stores the `%d` text of `n`. */
    method SetInt(key: Option<string>, n: i32, heapOk: bool) returns (r: int)
      requires Valid()
      modifies this
      ensures Valid()
      ensures r == -1 <==> key.None? || (Find(old(items), key.value).None? && !heapOk)
      ensures items == (if key.None? then old(items)
                        else Assign(old(items), key.value, Text.IntToString(n as int), heapOk))
    {
      if key.None? {
        return -1;
      }
      r := SetString(key, Some(Text.IntToString(n as int)), heapOk);
    }

    /** `pad_config_get_int`: the default for a NULL or absent key, else `atoi` of the value. */
    method GetInt(key: Option<string>, default: i32) returns (r: int)
      ensures r == LookupInt(items, key, default)
    {
      if key.None? {
        return default as int;
      }
      var s := GetString(key, None);
      if s.None? {
        return default as int;
      }
      return Text.Atoi(s.value);
    }

    /** `pad_config_remove`: unlinks the first match and returns 0, or returns -1 when there is none. */
    method Remove(key: Option<string>) returns (r: int)
      requires Valid()
      modifies this
      ensures Valid()
      ensures r == -1 <==> key.None? || Find(old(items), key.value).None?
      ensures r == 0 || r == -1
      ensures items == (if key.None? then old(items) else Removed(old(items), key.value))
    {
      if key.None? {
        return -1;
      }
      var i := 0;
      while i < |items|
        invariant 0 <= i <= |items| && items == old(items)
        invariant forall j :: 0 <= j < i ==> items[j].name != key.value
      {
        if items[i].name == key.value {
          items := items[..i] + items[i + 1..];
          assert forall j :: 0 <= j < |items| ==> items[j] in old(items);
          return 0;
        }
        i := i + 1;
      }
      return -1;
    }

    /** `pad_config_enumerate_keys`: -1 without a callback; otherwise the callback sees every node from the head. */
    method Enumerate(hasCallback: bool) returns (r: int, visited: seq<Item>)
      ensures r == -1 <==> !hasCallback
      ensures r == -1 || r == 0
      ensures visited == (if hasCallback then items else [])
    {
      if !hasCallback {
        return -1, [];
      }
      visited := [];
      for i := 0 to |items|
        invariant visited == items[..i]
      {
        visited := visited + [items[i]];
      }
      assert items[..|items|] == items;
      return 0, visited;
    }

    /** `pad_config_save`: -1 for a NULL file name or a file that cannot be created; else the text written. */
    method Save(filename: Option<string>, canCreate: bool) returns (r: int, text: string)
      ensures r == -1 <==> filename.None? || !canCreate
      ensures r == -1 || r == 0
      ensures text == (if r == 0 then SavedText(items) else [])
    {
      if filename.None? || !canCreate {
        return -1, [];
      }
      text := [];
      for i := 0 to |items|
        invariant text == SavedText(items[..i])
      {
        assert items[..i + 1][..i] == items[..i];
        text := text + SavedLine(items[i]);
      }
      assert items[..|items|] == items;
      return 0, text;
    }

    /**
     * `pad_config_load`: -1 for a NULL file name or a file that cannot be
     * opened; otherwise every line read by `fgets` is parsed and its pair
     * set, in file order, and the result is 0.
     */
    method Load(filename: Option<string>, contents: Option<string>, heapOk: bool) returns (r: int)
      requires Valid()
      modifies this
      ensures Valid()
      ensures r == -1 <==> filename.None? || contents.None?
      ensures r == -1 || r == 0
      ensures items == (if r == -1 then old(items) else LoadChunks(old(items), Chunks(contents.value), heapOk))
    {
      if filename.None? || contents.None? {
        return -1;
      }
      var rest := contents.value;
      while rest != []
        invariant Valid()
        invariant LoadChunks(old(items), Chunks(contents.value), heapOk) == LoadChunks(items, Chunks(rest), heapOk)
        decreases |rest|
      {
        var k := LineEnd(rest);
        var chunk := rest[..k];
        match ParseLine(LineText(chunk)) {
          case None =>
          case Some(kv) =>
            var _ := SetString(Some(kv.0), Some(kv.1), heapOk);
        }
        rest := rest[k..];
      }
      return 0;
    }
  }

  // ------------------------------------------- keys longer than the field

  /** A 64-character key: one more than the name field holds. */
  function LongKey(): (k: string)
    ensures |k| == NAME_SIZE
  {
    seq(NAME_SIZE, _ => 'k')
  }

  /** As written, a key of 64 or more characters is stored cut, so `get_string` with it misses right after a successful set. */
  lemma LongKeyIsLost()
    ensures Assign([], LongKey(), "1", true) != []
    ensures Lookup(Assign([], LongKey(), "1", true), Some(LongKey()), None) == None
  {
    var after := Assign([], LongKey(), "1", true);
    assert after[0].name == Field(LongKey(), NAME_SIZE);
    assert |after[0].name| < |LongKey()|;
  }

  /** As written, setting the same long key twice adds a second node with the same stored name. */
  lemma LongKeyDuplicates()
    ensures var twice := Assign(Assign([], LongKey(), "1", true), LongKey(), "2", true);
            |twice| == 2 && twice[0].name == twice[1].name
  {
    var once := Assign([], LongKey(), "1", true);
    assert |once[0].name| < |LongKey()|;
    assert Find(once, LongKey()) == None;
  }

  /** Set with the key compared and stored as the name field holds it. */
  function AssignStored(items: seq<Item>, key: string, value: string, heapOk: bool): seq<Item> {
    Assign(items, Field(key, NAME_SIZE), value, heapOk)
  }

  /** Get with the key compared as the name field holds it. */
  function LookupStored(items: seq<Item>, key: Option<string>, default: Option<string>): Option<string> {
    if key.None? then default else Lookup(items, Some(Field(key.value, NAME_SIZE)), default)
  }

  /** With the key cut to the field on both sides, every key is found after it is set. */
  lemma GetAfterSetStored(items: seq<Item>, key: string, value: string, heapOk: bool, default: Option<string>)
    requires Find(items, Field(key, NAME_SIZE)).Some? || heapOk
    ensures LookupStored(AssignStored(items, key, value, heapOk), Some(key), default) == Some(Field(value, VALUE_SIZE))
  {
    GetAfterSet(items, Field(key, NAME_SIZE), value, heapOk, default);
  }

  /** With the key cut to the field, names stay unique for every key. */
  lemma SetStoredKeepsNamesUnique(items: seq<Item>, key: string, value: string, heapOk: bool)
    requires UniqueNames(items)
    ensures UniqueNames(AssignStored(items, key, value, heapOk))
  {
    SetKeepsNamesUnique(items, Field(key, NAME_SIZE), value, heapOk);
  }
}
