/** The methods of the protocol on the wire, octet by octet, as the generated readers and writers of
    spec091.go have them. */
module MethodLayouts {
  import opened Bytes
  import opened Primitives
  import opened Octets
  import opened Sequences
  import opened Fields
  import opened Fieldsets
  import opened Methods
  import opened MethodFrames
  import opened Options
  import opened Spec091
  import FL = FieldLayouts
  import L = Layouts

  type Laid = Methods.Laid

  function Flag(b: bool, weight: nat): nat {
    if b then weight else 0
  }

  // ----- one field -----

  predicate PlainArg(a: Laid) {
    FitsArg(a) && !a.Bit?
  }

  predicate Plain(args: seq<Laid>) {
    FitsArgs(args) && forall i | 0 <= i < |args| :: PlainArg(args[i])
  }

  function ArgOctets(a: Laid): bytes
    requires PlainArg(a)
  {
    match a
    case Octet(n) => [n]
    case Short(n) => U16(n)
    case Long(n) => U32(n)
    case LongLong(n) => U64(n)
    case ShortStr(s) => Str8(s)
    case LongStr(s) => Str32(s)
    case TableArg(entries) => FL.TableOctets(entries)
  }

  lemma {:induction false} ArgLayout(a: Laid)
    requires PlainArg(a)
    ensures EncodeArg(a) == ArgOctets(a)
  {
    match a
    case Octet(n) =>
      BigEndian1(n);
    case Short(n) =>
      BigEndian2(n);
    case Long(n) =>
      BigEndian4(n);
    case LongLong(n) =>
      BigEndian8(n);
    case ShortStr(s) =>
      FL.ShortstrOctets(s);
    case LongStr(s) =>
      FL.LongstrOctets(s);
    case TableArg(entries) =>
      FL.TableLayout(entries);
  }

  // ----- several fields -----

  /** `front` and then the fields, one after the other. */
  function Put(front: bytes, args: seq<Laid>): bytes
    requires Plain(args)
  {
    if args == [] then front else Put(front, args[..|args| - 1]) + ArgOctets(args[|args| - 1])
  }

  lemma {:induction false} PlainConcat(a: seq<Laid>, b: seq<Laid>)
    requires Plain(a) && Plain(b)
    ensures Plain(a + b) && (a != [] ==> Plain(a[1..]))
  {
    forall i | 0 <= i < |a + b|
      ensures PlainArg((a + b)[i])
    {
      assert (a + b)[i] == if i < |a| then a[i] else b[i - |a|];
    }
  }

  lemma {:induction false} EncodePlainConcat(a: seq<Laid>, b: seq<Laid>)
    requires Plain(a) && Plain(b)
    ensures Plain(a + b) && EncodePlain(a + b) == EncodePlain(a) + EncodePlain(b)
  {
    PlainConcat(a, b);
    if a == [] {
      assert a + b == b;
    } else {
      ConsConcat(a, b);
      EncodePlainConcat(a[1..], b);
      ConcatAssoc(EncodeArg(a[0]), EncodePlain(a[1..]), EncodePlain(b));
    }
  }

  lemma {:induction false} EncodePlainSnoc(args: seq<Laid>, a: Laid)
    requires Plain(args) && PlainArg(a)
    ensures Plain(args + [a]) && EncodePlain(args + [a]) == EncodePlain(args) + EncodeArg(a)
  {
    L.OnePlain(a);
    EncodePlainConcat(args, [a]);
  }

  lemma {:induction false} PutLayout(front: bytes, args: seq<Laid>)
    requires Plain(args)
    ensures front + EncodePlain(args) == Put(front, args)
  {
    if args == [] {
      assert front + [] == front;
    } else {
      var before, a := args[..|args| - 1], args[|args| - 1];
      SplitLast(args);
      PutLayout(front, before);
      EncodePlainSnoc(before, a);
      ArgLayout(a);
      ConcatAssoc(front, EncodePlain(before), ArgOctets(a));
    }
  }

  lemma {:induction false} Put1(front: bytes, a: Laid)
    requires PlainArg(a)
    ensures Plain([a]) && Put(front, [a]) == front + ArgOctets(a)
  {
    assert [a][..0] == [] && [a][0] == a;
  }

  lemma {:induction false} Put2(front: bytes, a: Laid, b: Laid)
    requires PlainArg(a) && PlainArg(b)
    ensures Plain([a, b]) && Put(front, [a, b]) == front + ArgOctets(a) + ArgOctets(b)
  {
    assert [a, b][..1] == [a] && [a, b][1] == b;
    Put1(front, a);
  }

  lemma {:induction false} Put3(front: bytes, a: Laid, b: Laid, c: Laid)
    requires PlainArg(a) && PlainArg(b) && PlainArg(c)
    ensures Plain([a, b, c]) && Put(front, [a, b, c]) == front + ArgOctets(a) + ArgOctets(b) + ArgOctets(c)
  {
    assert [a, b, c][..2] == [a, b] && [a, b, c][2] == c;
    Put2(front, a, b);
  }

  lemma {:induction false} Put4(front: bytes, a: Laid, b: Laid, c: Laid, d: Laid)
    requires PlainArg(a) && PlainArg(b) && PlainArg(c) && PlainArg(d)
    ensures Plain([a, b, c, d]) && Put(front, [a, b, c, d]) == front + ArgOctets(a) + ArgOctets(b) + ArgOctets(c) + ArgOctets(d)
  {
    assert [a, b, c, d][..3] == [a, b, c] && [a, b, c, d][3] == d;
    Put3(front, a, b, c);
  }

  lemma {:induction false} Put5(front: bytes, a: Laid, b: Laid, c: Laid, d: Laid, e: Laid)
    requires PlainArg(a) && PlainArg(b) && PlainArg(c) && PlainArg(d) && PlainArg(e)
    ensures Plain([a, b, c, d, e]) && Put(front, [a, b, c, d, e]) == front + ArgOctets(a) + ArgOctets(b) + ArgOctets(c) + ArgOctets(d) + ArgOctets(e)
  {
    assert [a, b, c, d, e][..4] == [a, b, c, d] && [a, b, c, d, e][4] == e;
    Put4(front, a, b, c, d);
  }

  // ----- flags -----

  function Weigh(flags: seq<bool>, weight: nat): nat {
    if flags == [] then 0 else Flag(flags[0], weight) + Weigh(flags[1..], 2 * weight)
  }

  lemma {:induction false} WeighDouble(flags: seq<bool>, weight: nat)
    ensures Weigh(flags, 2 * weight) == 2 * Weigh(flags, weight)
  {
    if flags != [] {
      WeighDouble(flags[1..], 2 * weight);
    }
  }

  /** Clear bits above the flags add nothing. */
  lemma {:induction false} WeighBits(flags: seq<bool>, bits: seq<bool>)
    requires |flags| <= |bits|
    requires forall i | 0 <= i < |bits| :: bits[i] == (i < |flags| && flags[i])
    ensures FromBits(bits) == Weigh(flags, 1)
    decreases |bits|
  {
    if bits != [] {
      var rest := if flags == [] then [] else flags[1..];
      WeighBits(rest, bits[1..]);
      WeighDouble(rest, 1);
    }
  }

  function BitArgs(flags: seq<bool>): seq<Laid> {
    seq(|flags|, i requires 0 <= i < |flags| => Bit(flags[i]))
  }

  lemma {:induction false} FlagsPacked(flags: seq<bool>)
    requires |flags| <= 8
    ensures PackBits(OrBits(NO_BITS, BitArgs(flags))) == Weigh(flags, 1)
  {
    WeighBits(flags, OrBits(NO_BITS, BitArgs(flags)));
  }

  function PutFlags(front: bytes, flags: seq<bool>): bytes
    requires |flags| <= 8
  {
    FlagsPacked(flags);
    if flags == [] then front else front + [Weigh(flags, 1)]
  }

  lemma {:induction false} Weigh1(a: bool)
    ensures Weigh([a], 1) == Flag(a, 1)
  {
    assert [a][1..] == [];
  }

  lemma {:induction false} Weigh2(a: bool, b: bool)
    ensures Weigh([a, b], 1) == Flag(a, 1) + Flag(b, 2)
  {
    assert [a, b][1..] == [b] && [b][1..] == [];
    assert Weigh([b], 2) == Flag(b, 2);
  }

  lemma {:induction false} Weigh3(a: bool, b: bool, c: bool)
    ensures Weigh([a, b, c], 1) == Flag(a, 1) + Flag(b, 2) + Flag(c, 4)
  {
    assert [a, b, c][1..] == [b, c] && [b, c][1..] == [c] && [c][1..] == [];
    assert Weigh([c], 4) == Flag(c, 4);
    assert Weigh([b, c], 2) == Flag(b, 2) + Weigh([c], 4);
  }

  lemma {:induction false} Weigh4(a: bool, b: bool, c: bool, d: bool)
    ensures Weigh([a, b, c, d], 1) == Flag(a, 1) + Flag(b, 2) + Flag(c, 4) + Flag(d, 8)
  {
    assert [a, b, c, d][1..] == [b, c, d] && [b, c, d][1..] == [c, d] && [c, d][1..] == [d] && [d][1..] == [];
    assert Weigh([d], 8) == Flag(d, 8);
    assert Weigh([c, d], 4) == Flag(c, 4) + Weigh([d], 8);
    assert Weigh([b, c, d], 2) == Flag(b, 2) + Weigh([c, d], 4);
  }

  lemma {:induction false} Weigh5(a: bool, b: bool, c: bool, d: bool, e: bool)
    ensures Weigh([a, b, c, d, e], 1) == Flag(a, 1) + Flag(b, 2) + Flag(c, 4) + Flag(d, 8) + Flag(e, 16)
  {
    assert [a, b, c, d, e][1..] == [b, c, d, e] && [b, c, d, e][1..] == [c, d, e];
    assert [c, d, e][1..] == [d, e] && [d, e][1..] == [e] && [e][1..] == [];
    assert Weigh([e], 16) == Flag(e, 16);
    assert Weigh([d, e], 8) == Flag(d, 8) + Weigh([e], 16);
    assert Weigh([c, d, e], 4) == Flag(c, 4) + Weigh([d, e], 8);
    assert Weigh([b, c, d, e], 2) == Flag(b, 2) + Weigh([c, d, e], 4);
  }

  lemma {:induction false} PutFlags1(front: bytes, a: bool)
    ensures PutFlags(front, [a]) == front + [Flag(a, 1)]
  {
    FlagsPacked([a]);
    Weigh1(a);
  }

  lemma {:induction false} PutFlags2(front: bytes, a: bool, b: bool)
    ensures PutFlags(front, [a, b]) == front + [Flag(a, 1) + Flag(b, 2)]
  {
    FlagsPacked([a, b]);
    Weigh2(a, b);
  }

  lemma {:induction false} PutFlags3(front: bytes, a: bool, b: bool, c: bool)
    ensures PutFlags(front, [a, b, c]) == front + [Flag(a, 1) + Flag(b, 2) + Flag(c, 4)]
  {
    FlagsPacked([a, b, c]);
    Weigh3(a, b, c);
  }

  lemma {:induction false} PutFlags4(front: bytes, a: bool, b: bool, c: bool, d: bool)
    ensures PutFlags(front, [a, b, c, d]) == front + [Flag(a, 1) + Flag(b, 2) + Flag(c, 4) + Flag(d, 8)]
  {
    FlagsPacked([a, b, c, d]);
    Weigh4(a, b, c, d);
  }

  lemma {:induction false} PutFlags5(front: bytes, a: bool, b: bool, c: bool, d: bool, e: bool)
    ensures PutFlags(front, [a, b, c, d, e]) == front + [Flag(a, 1) + Flag(b, 2) + Flag(c, 4) + Flag(d, 8) + Flag(e, 16)]
  {
    FlagsPacked([a, b, c, d, e]);
    Weigh5(a, b, c, d, e);
  }

  // ----- grouping does not show -----

  lemma {:induction false} UngroupConcat(a: Sets, b: Sets)
    ensures Ungroup(a + b) == Ungroup(a) + Ungroup(b)
  {
    if b == [] {
      assert a + b == a && Ungroup(a) + [] == Ungroup(a);
    } else {
      var most, last := b[..|b| - 1], b[|b| - 1];
      SplitLast(b);
      UngroupConcat(a, most);
      ConcatAssoc(a, most, [last]);
      L.UngroupSnoc(a + most, last);
      ConcatAssoc(Ungroup(a), Ungroup(most), Members(last));
    }
  }

  lemma {:induction false} UngroupCons(sets: Sets)
    requires sets != []
    ensures Ungroup(sets) == Members(sets[0]) + Ungroup(sets[1..])
  {
    SplitAt(sets, 1);
    UngroupConcat(sets[..1], sets[1..]);
    OneSet(sets[..1]);
  }

  lemma {:induction false} OneSet(sets: Sets)
    requires |sets| == 1
    ensures Ungroup(sets) == Members(sets[0])
  {
    assert sets[..0] == [] && [] + Members(sets[0]) == Members(sets[0]);
  }

  /** Each field has the type that is declared for it. */
  ghost predicate Declared(fields: seq<Decl<()>>, args: seq<Laid>) {
    |fields| == |args| && forall i | 0 <= i < |args| :: KindOf(args[i]) == fields[i].kind
  }

  lemma {:induction false} Kinds1(a: Laid)
    ensures Declared(Decls([KindOf(a)]), [a])
  {
  }

  lemma {:induction false} Kinds2(a: Laid, b: Laid)
    ensures Declared(Decls([KindOf(a), KindOf(b)]), [a, b])
  {
  }

  lemma {:induction false} Kinds3(a: Laid, b: Laid, c: Laid)
    ensures Declared(Decls([KindOf(a), KindOf(b), KindOf(c)]), [a, b, c])
  {
  }

  lemma {:induction false} Kinds4(a: Laid, b: Laid, c: Laid, d: Laid)
    ensures Declared(Decls([KindOf(a), KindOf(b), KindOf(c), KindOf(d)]), [a, b, c, d])
  {
  }

  lemma {:induction false} Kinds5(a: Laid, b: Laid, c: Laid, d: Laid, e: Laid)
    ensures Declared(Decls([KindOf(a), KindOf(b), KindOf(c), KindOf(d), KindOf(e)]), [a, b, c, d, e])
  {
  }

  lemma {:induction false} DeclaredIsTyped(sets: Sets, args: seq<Laid>)
    requires Declared(Ungroup(sets), args)
    ensures Typed(sets, args)
  {
    if sets != [] {
      UngroupCons(sets);
      var n, fields := |sets[0].fields|, Ungroup(sets);
      assert forall i | 0 <= i < n :: fields[i] == Members(sets[0])[i];
      assert fields[n..] == Ungroup(sets[1..]);
      forall i | 0 <= i < |args| - n
        ensures KindOf(args[n..][i]) == Ungroup(sets[1..])[i].kind
      {
        assert fields[n..][i] == fields[n + i];
      }
      DeclaredIsTyped(sets[1..], args[n..]);
    }
  }

  lemma {:induction false} PlainSets(sets: Sets, args: seq<Laid>, bits: seq<bool>)
    requires Typed(sets, args) && Plain(args) && |bits| == 8
    requires forall i | 0 <= i < |sets| :: sets[i].kind != BitK
    ensures EncodeSets(sets, args, bits) == EncodePlain(args)
  {
    if sets != [] {
      var n := |sets[0].fields|;
      SplitAt(args, n);
      PlainSets(sets[1..], args[n..], bits);
      EncodePlainConcat(args[..n], args[n..]);
    }
  }

  lemma {:induction false} ConcatSets(a: Sets, b: Sets, args: seq<Laid>, more: seq<Laid>, bits: seq<bool>)
    requires Typed(a, args) && Typed(b, more) && Plain(args) && FitsArgs(more) && |bits| == 8
    requires forall i | 0 <= i < |a| :: a[i].kind != BitK
    ensures Typed(a + b, args + more) && FitsArgs(args + more)
    ensures EncodeSets(a + b, args + more, bits) == EncodeSets(a, args, bits) + EncodeSets(b, more, bits)
  {
    if a == [] {
      assert a + b == b && args + more == more;
    } else {
      var n := |a[0].fields|;
      ConcatSets(a[1..], b, args[n..], more, bits);
      FrontSet(a, b, args, more);
      ConcatAssoc(EncodePlain(args[..n]), EncodeSets(a[1..], args[n..], bits), EncodeSets(b, more, bits));
    }
  }

  lemma {:induction false} FrontSet(a: Sets, b: Sets, args: seq<Laid>, more: seq<Laid>)
    requires a != [] && Typed(a, args)
    ensures (a + b)[1..] == a[1..] + b && (a + b)[0] == a[0]
    ensures var n := |a[0].fields|;
            && n <= |args| && (args + more)[n..] == args[n..] + more && (args + more)[..n] == args[..n]
  {
  }

  /** The field sets of fields that are not bits. */
  lemma {:induction false} PlainGroup(kinds: seq<Kind>, args: seq<Laid>)
    requires Declared(Decls(kinds), args) && Plain(args)
    ensures var sets := Group(Decls(kinds));
            && Typed(sets, args) && Maximal(sets) && Ungroup(sets) == Decls(kinds)
            && (forall i | 0 <= i < |sets| :: sets[i].kind != BitK)
  {
    var sets := Group(Decls(kinds));
    GroupCorrect(Decls(kinds));
    DeclaredIsTyped(sets, args);
    forall i | 0 <= i < |sets|
      ensures sets[i].kind != BitK
    {
      KindOccurs(sets, i);
    }
  }

  lemma {:induction false} KindOccurs(sets: Sets, i: nat)
    requires i < |sets| && sets[i].fields != []
    ensures exists j :: 0 <= j < |Ungroup(sets)| && Ungroup(sets)[j].kind == sets[i].kind
  {
    UngroupConcat(sets[..i], sets[i..]);
    assert sets[..i] + sets[i..] == sets;
    UngroupCons(sets[i..]);
    assert Ungroup(sets)[|Ungroup(sets[..i])|] == Members(sets[i])[0];
  }

  /** The field sets of a method with a run of bits. */
  lemma {:induction false} BitGroup(sig: Sig, pre: seq<Laid>, flags: seq<bool>, post: seq<Laid>)
    requires sig.bits == |flags| && 0 < |flags| <= 8 && Plain(pre) && Plain(post)
    requires Declared(Decls(sig.pre), pre) && Declared(Decls(sig.post), post)
    ensures var run := Fieldset(BitK, seq(|flags|, i => ()));
            SigSets(sig) == Group(Decls(sig.pre)) + ([run] + Group(Decls(sig.post)))
  {
    var run := Fieldset(BitK, seq(|flags|, i => ()));
    var a, b := Group(Decls(sig.pre)), Group(Decls(sig.post));
    var sets := a + ([run] + b);
    PlainGroup(sig.pre, pre);
    PlainGroup(sig.post, post);
    UngroupConcat(a, [run] + b);
    UngroupCons([run] + b);
    assert ([run] + b)[1..] == b && Members(run) == BitDecls(sig.bits);
    JoinMaximal(a, run, b);
    ConcatAssoc(Decls(sig.pre), BitDecls(sig.bits), Decls(sig.post));
    GroupUnique(sets, SigFields(sig));
  }

  lemma {:induction false} JoinMaximal(a: Sets, run: Fieldset<()>, b: Sets)
    requires Maximal(a) && Maximal(b) && run.kind == BitK && run.fields != []
    requires (forall i | 0 <= i < |a| :: a[i].kind != BitK) && (forall i | 0 <= i < |b| :: b[i].kind != BitK)
    ensures Maximal(a + ([run] + b))
  {
    var sets, n := a + ([run] + b), |a|;
    assert forall i | 0 <= i < n :: sets[i] == a[i];
    assert sets[n] == run;
    assert forall i | n < i < |sets| :: sets[i] == b[i - n - 1];
  }

  function FlagOctet(flags: seq<bool>): bytes
    requires |flags| <= 8
  {
    if flags == [] then [] else [PackBits(OrBits(NO_BITS, BitArgs(flags)))]
  }

  ghost predicate Laying(sig: Sig, pre: seq<Laid>, flags: seq<bool>, post: seq<Laid>) {
    && sig.bits == |flags| <= 8 && Plain(pre) && Plain(post)
    && Declared(Decls(sig.pre), pre) && Declared(Decls(sig.post), post)
  }

  /** What the generated writer writes: the fields one after the other, and the bits in one octet. */
  lemma {:induction false} SigOctets(sig: Sig, pre: seq<Laid>, flags: seq<bool>, post: seq<Laid>)
    requires Laying(sig, pre, flags, post)
    ensures var args := pre + (BitArgs(flags) + post);
            && Typed(SigSets(sig), args) && FitsArgs(args)
            && EncodeSets(SigSets(sig), args, NO_BITS) == EncodePlain(pre) + (FlagOctet(flags) + EncodePlain(post))
  {
    if flags == [] {
      NoBits(sig, pre, post);
      assert BitArgs(flags) + post == post && FlagOctet(flags) + EncodePlain(post) == EncodePlain(post);
    } else {
      WithBits(sig, pre, flags, post);
    }
  }

  lemma {:induction false} NoBits(sig: Sig, pre: seq<Laid>, post: seq<Laid>)
    requires Laying(sig, pre, [], post)
    ensures Typed(SigSets(sig), pre + post) && FitsArgs(pre + post)
    ensures EncodeSets(SigSets(sig), pre + post, NO_BITS) == EncodePlain(pre) + EncodePlain(post)
  {
    var kinds := sig.pre + sig.post;
    assert SigFields(sig) == Decls(kinds);
    EncodePlainConcat(pre, post);
    assert Declared(Decls(kinds), pre + post);
    PlainGroup(kinds, pre + post);
    PlainSets(SigSets(sig), pre + post, NO_BITS);
  }

  lemma {:induction false} WithBits(sig: Sig, pre: seq<Laid>, flags: seq<bool>, post: seq<Laid>)
    requires Laying(sig, pre, flags, post) && flags != []
    ensures var args := pre + (BitArgs(flags) + post);
            && Typed(SigSets(sig), args) && FitsArgs(args)
            && EncodeSets(SigSets(sig), args, NO_BITS) == EncodePlain(pre) + (FlagOctet(flags) + EncodePlain(post))
  {
    var run := Fieldset(BitK, seq(|flags|, i => ()));
    var a, b := Group(Decls(sig.pre)), Group(Decls(sig.post));
    BitGroup(sig, pre, flags, post);
    PlainGroup(sig.pre, pre);
    PlainGroup(sig.post, post);
    var bits := OrBits(NO_BITS, BitArgs(flags));
    assert ([run] + b)[1..] == b && ([run] + b)[0] == run;
    L.OneBitRun([run] + b, BitArgs(flags), post, bits);
    ConcatSets(a, [run] + b, pre, BitArgs(flags) + post, NO_BITS);
    PlainSets(a, pre, NO_BITS);
    PlainSets(b, post, bits);
  }

  // ----- a whole method -----

  function Ids(classId: uint16, id: uint16): bytes {
    [classId / 0x100, classId % 0x100, id / 0x100, id % 0x100]
  }

  function MethodOf(classId: uint16, id: uint16, pre: seq<Laid>, flags: seq<bool>, post: seq<Laid>): Method<seq<Entry>> {
    Method(classId, id, pre + (BitArgs(flags) + post))
  }

  /** The method with these fields is written as `octets`, and these are read as a method with the same
      fields, in normal form, whatever follows. */
  ghost predicate Wire(spec: Spec, classId: uint16, id: uint16, pre: seq<Laid>, flags: seq<bool>, post: seq<Laid>, octets: bytes)
    requires ValidSpec(spec)
  {
    var m := MethodOf(classId, id, pre, flags, post);
    && FitsMethod(spec, m) && EncodeMethod(spec, m) == octets
    && forall v: Method<FieldTable>, rest: bytes :: OrdersMethod(m, v) ==>
         DecodeMethod(spec, octets + rest) == Ok(NormalMethod(v), rest)
  }

  lemma {:induction false} Layout(spec: Spec, classId: uint16, id: uint16, sig: Sig, pre: seq<Laid>, flags: seq<bool>, post: seq<Laid>)
    requires ValidSpec(spec) && spec(classId, id) == Some(sig) && Laying(sig, pre, flags, post)
    ensures Wire(spec, classId, id, pre, flags, post, Put(PutFlags(Put(Ids(classId, id), pre), flags), post))
  {
    var m := MethodOf(classId, id, pre, flags, post);
    SigOctets(sig, pre, flags, post);
    LayoutOctets(classId, id, pre, flags, post);
    forall v: Method<FieldTable>, rest: bytes | OrdersMethod(m, v)
      ensures DecodeMethod(spec, EncodeMethod(spec, m) + rest) == Ok(NormalMethod(v), rest)
    {
      MethodRoundTrip(spec, m, v, rest);
    }
  }

  lemma {:induction false} LayoutOctets(classId: uint16, id: uint16, pre: seq<Laid>, flags: seq<bool>, post: seq<Laid>)
    requires Plain(pre) && Plain(post) && |flags| <= 8
    ensures BigEndian(classId, 2) + BigEndian(id, 2) + (EncodePlain(pre) + (FlagOctet(flags) + EncodePlain(post)))
            == Put(PutFlags(Put(Ids(classId, id), pre), flags), post)
  {
    IdsOctets(classId, id);
    FlagsPut(Put(Ids(classId, id), pre), flags);
    PutLayout(Ids(classId, id), pre);
    PutLayout(PutFlags(Put(Ids(classId, id), pre), flags), post);
    ConcatAssoc(Ids(classId, id), EncodePlain(pre), FlagOctet(flags) + EncodePlain(post));
    ConcatAssoc(Put(Ids(classId, id), pre), FlagOctet(flags), EncodePlain(post));
  }

  lemma {:induction false} IdsOctets(classId: uint16, id: uint16)
    ensures BigEndian(classId, 2) + BigEndian(id, 2) == Ids(classId, id)
  {
    BigEndian2(classId);
    BigEndian2(id);
  }

  lemma {:induction false} FlagsPut(front: bytes, flags: seq<bool>)
    requires |flags| <= 8
    ensures PutFlags(front, flags) == front + FlagOctet(flags)
  {
    FlagsPacked(flags);
    assert front + [] == front;
  }
}
