/** The readers and writers of read.go and write.go as they work: on buffers that are consumed and
    appended to step by step. Each is proved against the functions of module Fields. */
module FieldIO {
  import opened Bytes
  import opened Primitives
  import opened Fields
  import opened FieldTheorems

  /** A bytes.Buffer, or the unread part of an input stream. */
  class Buffer {
    var data: bytes

    constructor (data: bytes)
      ensures this.data == data
    {
      this.data := data;
    }
  }

  // ----- writing -----

  lemma {:induction false} EncodeItemsAppend(items: seq<Tree>, t: Tree)
    requires forall i | 0 <= i < |items| :: SupportedTree(items[i])
    requires SupportedTree(t)
    ensures EncodeItems(items + [t]) == EncodeItems(items) + EncodeTree(t)
  {
    if items == [] {
      assert [t][1..] == [];
    } else {
      assert (items + [t])[1..] == items[1..] + [t];
      EncodeItemsAppend(items[1..], t);
    }
  }

  lemma {:induction false} EncodeEntriesAppend(entries: seq<Entry>, e: Entry)
    requires SupportedEntries(entries) && SupportedTree(e.val)
    ensures EncodeEntries(entries + [e]) == EncodeEntries(entries) + Shortstr(e.key) + EncodeTree(e.val)
  {
    if entries == [] {
      assert [e][1..] == [];
    } else {
      assert (entries + [e])[1..] == entries[1..] + [e];
      EncodeEntriesAppend(entries[1..], e);
    }
  }

  /** Ranging over one more key of a map. */
  lemma {:induction false} OrdersTableAppend(entries: seq<Entry>, m: FieldTable, todo: set<bytes>, e: Entry)
    requires OrdersTable(entries, m - todo)
    requires e.key in todo && e.key in m && Orders(e.val, m[e.key])
    ensures OrdersTable(entries + [e], m - (todo - {e.key}))
  {
    var es, m' := entries + [e], m - (todo - {e.key});
    forall k | k in m'
      ensures exists i :: 0 <= i < |es| && es[i].key == k
    {
      if k == e.key {
        assert es[|entries|].key == k;
      } else {
        assert k in m - todo;
        var i :| 0 <= i < |entries| && entries[i].key == k;
        assert es[i].key == k;
      }
    }
  }

  lemma {:induction false} Assoc(a: bytes, b: bytes, c: bytes)
    ensures a + (b + c) == a + b + c
  {
  }

  /** The entries of `m` outside `todo` have been written, in the order of `entries`. */
  ghost predicate Written(entries: seq<Entry>, m: FieldTable, todo: set<bytes>, data: bytes) {
    && todo <= m.Keys
    && OrdersTable(entries, m - todo)
    && (forall k | k in m && k !in todo :: Supported(m[k]))
    && SupportedEntries(entries)
    && data == EncodeEntries(entries)
  }

  lemma {:induction false} WrittenOneMore(entries: seq<Entry>, m: FieldTable, todo: set<bytes>, e: Entry)
    requires SupportedEntries(entries) && Written(entries, m, todo, EncodeEntries(entries))
    requires e.key in todo && Orders(e.val, m[e.key]) && SupportedTree(e.val) && Supported(m[e.key])
    ensures Written(entries + [e], m, todo - {e.key}, EncodeEntries(entries) + Shortstr(e.key) + EncodeTree(e.val))
  {
    EncodeEntriesAppend(entries, e);
    OrdersTableAppend(entries, m, todo, e);
  }

  /** writeField. It succeeds exactly on supported values, and what it then appends is the encoding of
      the value under the iteration orders that it happened to take. */
  method WriteField(w: Buffer, f: Field) returns (ok: bool, ghost t: Tree)
    modifies w
    ensures ok <==> Supported(f)
    ensures ok ==> Orders(t, f) && SupportedTree(t) && w.data == old(w.data) + EncodeTree(t)
    ensures old(w.data) <= w.data
    decreases f, 1
  {
    match f
    case Leaf(v) =>
      t := LeafT(v);
      if v == Unsupported {
        return false, t;
      }
      w.data := w.data + ([Tag(v)] + ScalarPayload(v));
      return true, t;
    case Array(items) =>
      t := LeafT(Nil);
      ghost var trees;
      ok, trees := WriteArray(w, items);
      if ok {
        t := ArrayT(trees);
      }
    case Table(m) =>
      t := LeafT(Nil);
      w.data := w.data + ['F' as int];
      ghost var entries;
      ok, entries := WriteTable(w, m);
      if ok {
        t := TableT(entries);
        Assoc(old(w.data), ['F' as int], EncodeTable(entries));
      }
  }

  /** The first items of an array have been written. */
  ghost predicate WrittenItems(trees: seq<Tree>, items: seq<Field>, data: bytes) {
    && |trees| <= |items|
    && (forall i | 0 <= i < |trees| :: SupportedTree(trees[i]))
    && (forall i | 0 <= i < |trees| :: Orders(trees[i], items[i]) && Supported(items[i]))
    && data == EncodeItems(trees)
  }

  lemma {:induction false} WrittenOneItem(trees: seq<Tree>, items: seq<Field>, t: Tree)
    requires |trees| < |items| && (forall i | 0 <= i < |trees| :: SupportedTree(trees[i]))
    requires WrittenItems(trees, items, EncodeItems(trees))
    requires Orders(t, items[|trees|]) && SupportedTree(t) && Supported(items[|trees|])
    ensures WrittenItems(trees + [t], items, EncodeItems(trees) + EncodeTree(t))
  {
    EncodeItemsAppend(trees, t);
    var all := trees + [t];
    forall i | 0 <= i < |all|
      ensures SupportedTree(all[i]) && Orders(all[i], items[i]) && Supported(items[i])
    {
      if i < |trees| {
        assert all[i] == trees[i];
      }
    }
  }

  /** The field-array branch of writeField: nothing reaches `w` before every item has been encoded. */
  method WriteArray(w: Buffer, items: seq<Field>) returns (ok: bool, ghost trees: seq<Tree>)
    modifies w
    ensures ok <==> forall i | 0 <= i < |items| :: Supported(items[i])
    ensures ok ==> |trees| == |items| && forall i | 0 <= i < |items| :: Orders(trees[i], items[i])
    ensures ok ==> forall i | 0 <= i < |trees| :: SupportedTree(trees[i])
    ensures ok ==> w.data == old(w.data) + (['A' as int] + BigEndian(|EncodeItems(trees)| % 0x1_0000_0000, 4)
                                            + EncodeItems(trees))
    ensures !ok ==> w.data == old(w.data)
    decreases Array(items), 0
  {
    var sec := new Buffer([]);
    trees := [];
    for i := 0 to |items|
      invariant |trees| == i && WrittenItems(trees, items, sec.data)
      invariant w.data == old(w.data)
    {
      ghost var item: Tree;
      ok, item := WriteField(sec, items[i]);
      if !ok {
        return;
      }
      WrittenOneItem(trees, items, item);
      trees := trees + [item];
    }
    ok := true;
    w.data := w.data + (['A' as int] + BigEndian(|sec.data| % 0x1_0000_0000, 4) + sec.data);
  }

  /** writeTable: ranges over the map in whatever order the runtime picks. */
  method WriteTable(w: Buffer, m: FieldTable) returns (ok: bool, ghost entries: seq<Entry>)
    modifies w
    ensures ok <==> forall k | k in m :: Supported(m[k])
    ensures ok ==> OrdersTable(entries, m) && SupportedEntries(entries)
    ensures ok ==> w.data == old(w.data) + EncodeTable(entries)
    ensures old(w.data) <= w.data
    decreases Table(m), 0
  {
    var buf := new Buffer([]);
    entries := [];
    var todo := m.Keys;
    while todo != {}
      invariant Written(entries, m, todo, buf.data)
      invariant w.data == old(w.data)
      decreases todo
    {
      var key :| key in todo;
      buf.data := buf.data + Shortstr(key);
      ghost var val: Tree;
      ok, val := WriteField(buf, m[key]);
      if !ok {
        return;
      }
      WrittenOneMore(entries, m, todo, Entry(key, val));
      entries := entries + [Entry(key, val)];
      todo := todo - {key};
    }
    ok := true;
    assert m - {} == m;
    w.data := w.data + Longstr(buf.data);
  }

  /** validateField: accepts exactly the values that WriteField can write. */
  method ValidateField(f: Field) returns (ok: bool)
    ensures ok <==> Supported(f)
    decreases f
  {
    match f
    case Leaf(v) =>
      return v != Unsupported;
    case Array(items) =>
      for i := 0 to |items|
        invariant forall j | 0 <= j < i :: Supported(items[j])
      {
        ok := ValidateField(items[i]);
        if !ok {
          return;
        }
      }
      return true;
    case Table(m) =>
      var todo := m.Keys;
      while todo != {}
        invariant todo <= m.Keys
        invariant forall k | k in m && k !in todo :: Supported(m[k])
        decreases todo
      {
        var key :| key in todo;
        ok := ValidateField(m[key]);
        if !ok {
          return;
        }
        todo := todo - {key};
      }
      return true;
  }

  // ----- reading -----

  method ReadField(r: Buffer) returns (res: Read<Field>)
    modifies r
    ensures res == DecodeField(old(r.data)) && r.data == res.rest
    decreases |r.data|, 0
  {
    var typ := ReadUint(r.data, 1);
    r.data := typ.rest;
    if typ.Err? {
      return Err(typ.error, typ.rest);
    }
    if typ.value == 'A' as int {
      var items := ReadArray(r);
      res := items.Map(v => Array(v));
    } else if typ.value == 'F' as int {
      var m := ReadTable(r);
      res := m.Map(v => Table(v));
    } else {
      var v := DecodeScalar(typ.value, r.data);
      r.data := v.rest;
      res := v.Map(v => Leaf(v));
    }
  }

  /** readTable: fills a map entry by entry from a nested buffer. */
  method ReadTable(r: Buffer) returns (res: Read<FieldTable>)
    modifies r
    ensures res == DecodeTable(old(r.data)) && r.data == res.rest
    decreases |r.data|, 1
  {
    var str := ReadLongstr(r.data);
    r.data := str.rest;
    if str.Err? {
      return Err(str.error, str.rest);
    }
    var nested := new Buffer(str.value);
    var table: FieldTable := map[];
    while |nested.data| > 0
      invariant |nested.data| <= |str.value|
      invariant r.data == str.rest
      invariant DecodeEntries(str.value, map[]) == DecodeEntries(nested.data, table)
      decreases |nested.data|
    {
      var key := ReadShortstr(nested.data);
      nested.data := key.rest;
      if key.Err? {
        return Err(key.error, r.data);
      }
      var value := ReadField(nested);
      if value.Err? {
        return Err(value.error, r.data);
      }
      table := table[key.value := value.value];
    }
    return Ok(table, r.data);
  }

  /** readArray: a limited reader takes the next `size` octets; the loop ends at its end of input. */
  method ReadArray(r: Buffer) returns (res: Read<seq<Field>>)
    modifies r
    ensures res == DecodeArray(old(r.data)) && r.data == res.rest
    decreases |r.data|, 1
  {
    var size := ReadUint(r.data, 4);
    r.data := size.rest;
    if size.Err? {
      return Err(size.error, size.rest);
    }
    var n := if size.value <= |r.data| then size.value else |r.data|;
    var lim := new Buffer(r.data[..n]);
    var beyond := r.data[n..];
    var arr: seq<Field> := [];
    while true
      invariant |lim.data| <= n
      invariant DecodeItems(size.rest[..n], []) == DecodeItems(lim.data, arr)
      decreases |lim.data|
    {
      var field := ReadField(lim);
      if field.Err? {
        r.data := lim.data + beyond;
        return if field.error == EOF then Ok(arr, r.data) else Err(field.error, r.data);
      }
      arr := arr + [field.value];
    }
  }
}
