/** The generator's grouping of a method's fields into runs of one type, on which the generated readers
    and writers are built. */
module Fieldsets {
  import opened Options

  /** The AMQP types that method fields may have. */
  datatype Kind = BitK | OctetK | ShortK | LongK | LongLongK | ShortstrK | LongstrK | TableK

  datatype Decl<F> = Decl(kind: Kind, field: F)
  datatype Fieldset<F> = Fieldset(kind: Kind, fields: seq<F>)

  /** A field whose type name may have no native counterpart. */
  datatype Raw<F> = Raw(typ: Option<Kind>, field: F)

  /** Appends one field: to the last group if the types agree, otherwise as a group of its own. */
  function Snoc<F>(sets: seq<Fieldset<F>>, d: Decl<F>): seq<Fieldset<F>> {
    var n := |sets|;
    if n > 0 && sets[n - 1].kind == d.kind
    then sets[n - 1 := Fieldset(d.kind, sets[n - 1].fields + [d.field])]
    else sets + [Fieldset(d.kind, [d.field])]
  }

  function Group<F>(fields: seq<Decl<F>>): (sets: seq<Fieldset<F>>)
    ensures fields != [] ==> sets != [] && sets[|sets| - 1].kind == fields[|fields| - 1].kind
  {
    if fields == [] then [] else Snoc(Group(fields[..|fields| - 1]), fields[|fields| - 1])
  }

  function Members<F>(set_: Fieldset<F>): seq<Decl<F>> {
    seq(|set_.fields|, i requires 0 <= i < |set_.fields| => Decl(set_.kind, set_.fields[i]))
  }

  function Ungroup<F>(sets: seq<Fieldset<F>>): seq<Decl<F>> {
    if sets == [] then [] else Ungroup(sets[..|sets| - 1]) + Members(sets[|sets| - 1])
  }

  /** Groups are non-empty and neighbouring groups differ in type. */
  ghost predicate Maximal<F>(sets: seq<Fieldset<F>>) {
    && (forall i | 0 <= i < |sets| :: sets[i].fields != [])
    && (forall i | 0 < i < |sets| :: sets[i - 1].kind != sets[i].kind)
  }

  lemma {:induction false} SnocUngroup<F>(sets: seq<Fieldset<F>>, d: Decl<F>)
    ensures Ungroup(Snoc(sets, d)) == Ungroup(sets) + [d]
  {
    var k := |sets|;
    var r := Snoc(sets, d);
    if k > 0 && sets[k - 1].kind == d.kind {
      assert r[..k - 1] == sets[..k - 1];
      assert Members(r[k - 1]) == Members(sets[k - 1]) + [d];
      assert Ungroup(r) == Ungroup(sets[..k - 1]) + (Members(sets[k - 1]) + [d]);
    } else {
      assert r[..k] == sets;
      assert Members(r[k]) == [d];
    }
  }

  lemma {:induction false} SnocMaximal<F>(sets: seq<Fieldset<F>>, d: Decl<F>)
    requires Maximal(sets)
    ensures Maximal(Snoc(sets, d))
  {
  }

  /** Grouping keeps every field, in order, in maximal runs of one type. */
  lemma {:induction false} GroupCorrect<F>(fields: seq<Decl<F>>)
    ensures Ungroup(Group(fields)) == fields
    ensures Maximal(Group(fields))
  {
    var n := |fields|;
    if n > 0 {
      GroupCorrect(fields[..n - 1]);
      SnocUngroup(Group(fields[..n - 1]), fields[n - 1]);
      SnocMaximal(Group(fields[..n - 1]), fields[n - 1]);
      assert fields == fields[..n - 1] + [fields[n - 1]];
    }
  }

  /** All but the last field of the last group. */
  ghost function Init<F>(sets: seq<Fieldset<F>>): seq<Fieldset<F>>
    requires sets != [] && sets[|sets| - 1].fields != []
  {
    var k, last := |sets|, sets[|sets| - 1];
    if |last.fields| == 1 then sets[..k - 1]
    else sets[k - 1 := Fieldset(last.kind, last.fields[..|last.fields| - 1])]
  }

  lemma {:induction false} InitSnoc<F>(sets: seq<Fieldset<F>>) returns (d: Decl<F>)
    requires sets != [] && Maximal(sets)
    ensures Maximal(Init(sets))
    ensures Snoc(Init(sets), d) == sets
  {
    var k, last := |sets|, sets[|sets| - 1];
    var m := |last.fields|;
    d := Decl(last.kind, last.fields[m - 1]);
    if m == 1 {
      assert last.fields == [d.field];
      assert sets == sets[..k - 1] + [last];
    } else {
      assert last.fields == last.fields[..m - 1] + [d.field];
    }
  }

  /** There is no other way to group a list of fields into maximal runs. */
  lemma {:induction false} GroupUnique<F>(sets: seq<Fieldset<F>>, fields: seq<Decl<F>>)
    requires Ungroup(sets) == fields && Maximal(sets)
    ensures sets == Group(fields)
    decreases |fields|
  {
    if sets != [] {
      var d := InitSnoc(sets);
      var n := |fields|;
      SnocUngroup(Init(sets), d);
      assert fields[..n - 1] == Ungroup(Init(sets)) && fields[n - 1] == d;
      GroupUnique(Init(sets), fields[..n - 1]);
    }
  }

  function Known<F>(fields: seq<Raw<F>>): seq<Decl<F>>
    requires forall i | 0 <= i < |fields| :: fields[i].typ.Some?
  {
    seq(|fields|, i requires 0 <= i < |fields| => Decl(fields[i].typ.value, fields[i].field))
  }

  /** The in-place part of Fieldsets: merges neighbours of the same type; `i` is the last group left. */
  method Merge<F>(f: array<Fieldset<F>>, ghost ds: seq<Decl<F>>) returns (i: nat)
    requires f.Length == |ds| > 0
    requires forall k | 0 <= k < |ds| :: f[k] == Fieldset(ds[k].kind, [ds[k].field])
    modifies f
    ensures i < f.Length && f[..i + 1] == Group(ds)
  {
    var j := 1;
    i := 0;
    assert ds[..1][..0] == [] && f[..1] == Group(ds[..1]);
    while j < f.Length
      invariant 0 <= i < j <= f.Length
      invariant f[..i + 1] == Group(ds[..j])
      invariant forall k | j <= k < |ds| :: f[k] == Fieldset(ds[k].kind, [ds[k].field])
    {
      ghost var was := f[..i + 1];
      assert ds[..j + 1][..j] == ds[..j];
      if f[i].kind == f[j].kind {
        f[i] := Fieldset(f[i].kind, f[i].fields + f[j].fields);
      } else {
        i := i + 1;
        f[i] := f[j];
      }
      assert f[..i + 1] == Snoc(was, ds[j]);
      j := j + 1;
    }
    assert ds[..|ds|] == ds;
  }

  /** Fieldsets: one set per field, or failure on a type without a native counterpart; then merged. */
  method Fieldsets<F(0)>(fields: seq<Raw<F>>) returns (r: Option<seq<Fieldset<F>>>)
    ensures r.Some? <==> forall i | 0 <= i < |fields| :: fields[i].typ.Some?
    ensures r.Some? ==> Maximal(r.value) && Ungroup(r.value) == Known(fields)
  {
    var n := |fields|;
    if n == 0 {
      return Some([]);
    }
    var f := new Fieldset<F>[n];
    for k := 0 to n
      invariant forall i | 0 <= i < k :: fields[i].typ.Some?
      invariant forall i | 0 <= i < k :: f[i] == Fieldset(fields[i].typ.value, [fields[i].field])
    {
      if fields[k].typ.None? {
        return None;
      }
      f[k] := Fieldset(fields[k].typ.value, [fields[k].field]);
    }
    var i := Merge(f, Known(fields));
    GroupCorrect(Known(fields));
    return Some(f[..i + 1]);
  }
}
