/** Method frames: the class and method ids select the field sets that read and write the rest. */
module MethodFrames {
  import opened Bytes
  import opened Primitives
  import opened Fields
  import opened Fieldsets
  import opened Options
  import opened Methods

  /** The fields of a method: some that are not bits, then a run of bits, then more that are not. */
  datatype Sig = Sig(pre: seq<Kind>, bits: nat, post: seq<Kind>)

  predicate ValidSig(sig: Sig) {
    BitK !in sig.pre && BitK !in sig.post && sig.bits <= 8
  }

  /** The methods that a protocol specification defines, by class and method id. */
  type Spec = (uint16, uint16) -> Option<Sig>

  ghost predicate ValidSpec(spec: Spec) {
    forall c: uint16, m: uint16 :: spec(c, m).Some? ==> ValidSig(spec(c, m).value)
  }

  function Decls(kinds: seq<Kind>): seq<Decl<()>> {
    seq(|kinds|, i requires 0 <= i < |kinds| => Decl(kinds[i], ()))
  }

  function BitDecls(n: nat): seq<Decl<()>> {
    seq(n, i requires 0 <= i < n => Decl(BitK, ()))
  }

  function SigFields(sig: Sig): seq<Decl<()>> {
    Decls(sig.pre) + BitDecls(sig.bits) + Decls(sig.post)
  }

  function SigSets(sig: Sig): Sets {
    Group(SigFields(sig))
  }

  // ----- a valid signature has at most one run of bits, and that fits in an octet -----

  lemma {:induction false} BitSetsAppend(sets: Sets, s: Fieldset<()>)
    ensures BitSets(sets + [s]) == BitSets(sets) + if s.kind == BitK then 1 else 0
  {
    if sets == [] {
      assert [s][1..] == [];
    } else {
      assert (sets + [s])[1..] == sets[1..] + [s];
      BitSetsAppend(sets[1..], s);
    }
  }

  lemma {:induction false} BitSetsReplace(sets: Sets, k: nat, s: Fieldset<()>)
    requires k < |sets| && s.kind == sets[k].kind
    ensures BitSets(sets[k := s]) == BitSets(sets)
  {
    if k > 0 {
      assert sets[k := s][1..] == sets[1..][k - 1 := s];
      BitSetsReplace(sets[1..], k - 1, s);
    } else {
      assert sets[0 := s][1..] == sets[1..];
    }
  }

  lemma {:induction false} SnocBitSets(sets: Sets, d: Decl<()>)
    ensures BitSets(Snoc(sets, d)) == BitSets(sets) +
              if d.kind == BitK && (sets == [] || sets[|sets| - 1].kind != BitK) then 1 else 0
  {
    var n := |sets|;
    if n > 0 && sets[n - 1].kind == d.kind {
      BitSetsReplace(sets, n - 1, Fieldset(d.kind, sets[n - 1].fields + [d.field]));
    } else {
      BitSetsAppend(sets, Fieldset(d.kind, [d.field]));
    }
  }

  lemma {:induction false} SnocNonBit(sets: Sets, d: Decl<()>)
    requires d.kind != BitK && BitsFit(sets)
    ensures BitSets(Snoc(sets, d)) == BitSets(sets) && BitsFit(Snoc(sets, d))
  {
    SnocBitSets(sets, d);
  }

  lemma {:induction false} PreSets(pre: seq<Kind>)
    requires BitK !in pre
    ensures BitSets(Group(Decls(pre))) == 0 && BitsFit(Group(Decls(pre)))
    ensures Group(Decls(pre)) != [] ==> Group(Decls(pre))[|Group(Decls(pre))| - 1].kind != BitK
  {
    var n := |pre|;
    if n > 0 {
      PreSets(pre[..n - 1]);
      assert Decls(pre)[..n - 1] == Decls(pre[..n - 1]);
      SnocNonBit(Group(Decls(pre[..n - 1])), Decl(pre[n - 1], ()));
    }
  }

  /** After a non-empty run of bits the last set is that run. */
  ghost predicate EndsInRun(sets: Sets, n: nat) {
    && BitSets(sets) == 1 && BitsFit(sets)
    && sets != [] && sets[|sets| - 1].kind == BitK && |sets[|sets| - 1].fields| == n
  }

  lemma {:induction false} BitRun(pre: seq<Kind>, n: nat)
    requires BitK !in pre && 0 < n <= 8
    ensures EndsInRun(Group(Decls(pre) + BitDecls(n)), n)
  {
    var fields := Decls(pre) + BitDecls(n);
    var before := Decls(pre) + BitDecls(n - 1);
    assert BitDecls(n) == BitDecls(n - 1) + [Decl(BitK, ())];
    assert fields == before + [Decl(BitK, ())];
    if n == 1 {
      assert before == Decls(pre);
      PreSets(pre);
      RunBegins(Group(before));
    } else {
      BitRun(pre, n - 1);
      RunGrows(Group(before), n - 1);
    }
  }

  lemma {:induction false} RunBegins(sets: Sets)
    requires BitSets(sets) == 0 && BitsFit(sets) && (sets != [] ==> sets[|sets| - 1].kind != BitK)
    ensures EndsInRun(Snoc(sets, Decl(BitK, ())), 1)
  {
    SnocBitSets(sets, Decl(BitK, ()));
  }

  lemma {:induction false} RunGrows(sets: Sets, n: nat)
    requires EndsInRun(sets, n) && n < 8
    ensures EndsInRun(Snoc(sets, Decl(BitK, ())), n + 1)
  {
    SnocBitSets(sets, Decl(BitK, ()));
  }

  lemma {:induction false} PostSets(fields: seq<Decl<()>>, post: seq<Kind>)
    requires BitK !in post && BitSets(Group(fields)) <= 1 && BitsFit(Group(fields))
    ensures BitSets(Group(fields + Decls(post))) <= 1 && BitsFit(Group(fields + Decls(post)))
  {
    var n := |post|;
    if n == 0 {
      assert fields + Decls(post) == fields;
    } else {
      var all := fields + Decls(post);
      var before := fields + Decls(post[..n - 1]);
      assert Decls(post) == Decls(post[..n - 1]) + [Decl(post[n - 1], ())];
      assert all == before + [Decl(post[n - 1], ())];
      PostSets(fields, post[..n - 1]);
      SnocNonBit(Group(before), Decl(post[n - 1], ()));
    }
  }

  lemma {:induction false} SigOneRun(sig: Sig)
    requires ValidSig(sig)
    ensures BitSets(SigSets(sig)) <= 1 && BitsFit(SigSets(sig))
  {
    var front := Decls(sig.pre) + BitDecls(sig.bits);
    if sig.bits == 0 {
      assert front == Decls(sig.pre);
      PreSets(sig.pre);
    } else {
      BitRun(sig.pre, sig.bits);
    }
    PostSets(front, sig.post);
  }

  // ----- method payloads -----

  datatype Method<+T> = Method(classId: uint16, methodId: uint16, args: seq<Arg<T>>)

  ghost predicate OrdersMethod(w: Method<seq<Entry>>, v: Method<FieldTable>) {
    w.classId == v.classId && w.methodId == v.methodId && OrdersArgs(w.args, v.args)
  }

  /** `m` is a message of the specification whose fields fit on the wire. */
  predicate FitsMethod(spec: Spec, m: Method<seq<Entry>>) {
    && spec(m.classId, m.methodId).Some?
    && Typed(SigSets(spec(m.classId, m.methodId).value), m.args)
    && FitsArgs(m.args)
  }

  function NormalMethod(m: Method<FieldTable>): Method<FieldTable> {
    m.(args := NormalArgs(m.args))
  }

  function EncodeMethod(spec: Spec, m: Method<seq<Entry>>): bytes
    requires FitsMethod(spec, m)
  {
    BigEndian(m.classId, 2) + BigEndian(m.methodId, 2)
    + EncodeSets(SigSets(spec(m.classId, m.methodId).value), m.args, NO_BITS)
  }

  /** parseMethodFrame */
  function DecodeMethod(spec: Spec, data: bytes): (r: Read<Method<FieldTable>>)
    requires ValidSpec(spec)
    ensures |r.rest| <= |data|
  {
    var (c, d) :- ReadUint(data, 2);
    var (m, d') :- ReadUint(d, 2);
    if spec(c, m).None? then Err(UnknownMethod, d') else
    SigOneRun(spec(c, m).value);
    var (args, rest) :- DecodeSets(SigSets(spec(c, m).value), d');
    Ok(Method(c, m, args), rest)
  }

  lemma {:induction false} MethodRoundTrip(spec: Spec, w: Method<seq<Entry>>, v: Method<FieldTable>, rest: bytes)
    requires ValidSpec(spec) && FitsMethod(spec, w) && OrdersMethod(w, v)
    ensures DecodeMethod(spec, EncodeMethod(spec, w) + rest) == Ok(NormalMethod(v), rest)
  {
    var sets := SigSets(spec(w.classId, w.methodId).value);
    SigOneRun(spec(w.classId, w.methodId).value);
    var body := EncodeSets(sets, w.args, NO_BITS) + rest;
    var d := BigEndian(w.methodId, 2) + body;
    assert EncodeMethod(spec, w) + rest == BigEndian(w.classId, 2) + d;
    ReadUintInverts(w.classId, 2, d);
    ReadUintInverts(w.methodId, 2, body);
    MessageRoundTrip(sets, w.args, v.args, rest);
  }
}

/** The methods of AMQP 0-9-1 with the RabbitMQ extensions. */
module Spec091 {
  import opened Bytes
  import opened Fieldsets
  import opened Options
  import opened MethodFrames

  function ConnectionMethod(id: uint16): Option<Sig> {
    match id
    case 10 => Some(Sig([OctetK, OctetK, TableK, LongstrK, LongstrK], 0, [])) // start
    case 11 => Some(Sig([TableK, ShortstrK, LongstrK, ShortstrK], 0, [])) // start-ok
    case 20 => Some(Sig([LongstrK], 0, [])) // secure
    case 21 => Some(Sig([LongstrK], 0, [])) // secure-ok
    case 30 => Some(Sig([ShortK, LongK, ShortK], 0, [])) // tune
    case 31 => Some(Sig([ShortK, LongK, ShortK], 0, [])) // tune-ok
    case 40 => Some(Sig([ShortstrK, ShortstrK], 1, [])) // open
    case 41 => Some(Sig([ShortstrK], 0, [])) // open-ok
    case 50 => Some(Sig([ShortK, ShortstrK, ShortK, ShortK], 0, [])) // close
    case 51 => Some(Sig([], 0, [])) // close-ok
    case 60 => Some(Sig([ShortstrK], 0, [])) // blocked
    case 61 => Some(Sig([], 0, [])) // unblocked
    case 70 => Some(Sig([LongstrK, ShortstrK], 0, [])) // update-secret
    case 71 => Some(Sig([], 0, [])) // update-secret-ok
    case _ => None
  }

  function ChannelMethod(id: uint16): Option<Sig> {
    match id
    case 10 => Some(Sig([ShortstrK], 0, [])) // open
    case 11 => Some(Sig([LongstrK], 0, [])) // open-ok
    case 20 => Some(Sig([], 1, [])) // flow
    case 21 => Some(Sig([], 1, [])) // flow-ok
    case 40 => Some(Sig([ShortK, ShortstrK, ShortK, ShortK], 0, [])) // close
    case 41 => Some(Sig([], 0, [])) // close-ok
    case _ => None
  }

  function ExchangeMethod(id: uint16): Option<Sig> {
    match id
    case 10 => Some(Sig([ShortK, ShortstrK, ShortstrK], 5, [TableK])) // declare
    case 11 => Some(Sig([], 0, [])) // declare-ok
    case 20 => Some(Sig([ShortK, ShortstrK], 2, [])) // delete
    case 21 => Some(Sig([], 0, [])) // delete-ok
    case 30 => Some(Sig([ShortK, ShortstrK, ShortstrK, ShortstrK], 1, [TableK])) // bind
    case 31 => Some(Sig([], 0, [])) // bind-ok
    case 40 => Some(Sig([ShortK, ShortstrK, ShortstrK, ShortstrK], 1, [TableK])) // unbind
    case 51 => Some(Sig([], 0, [])) // unbind-ok
    case _ => None
  }

  function QueueMethod(id: uint16): Option<Sig> {
    match id
    case 10 => Some(Sig([ShortK, ShortstrK], 5, [TableK])) // declare
    case 11 => Some(Sig([ShortstrK, LongK, LongK], 0, [])) // declare-ok
    case 20 => Some(Sig([ShortK, ShortstrK, ShortstrK, ShortstrK], 1, [TableK])) // bind
    case 21 => Some(Sig([], 0, [])) // bind-ok
    case 30 => Some(Sig([ShortK, ShortstrK], 1, [])) // purge
    case 31 => Some(Sig([LongK], 0, [])) // purge-ok
    case 40 => Some(Sig([ShortK, ShortstrK], 3, [])) // delete
    case 41 => Some(Sig([LongK], 0, [])) // delete-ok
    case 50 => Some(Sig([ShortK, ShortstrK, ShortstrK, ShortstrK, TableK], 0, [])) // unbind
    case 51 => Some(Sig([], 0, [])) // unbind-ok
    case _ => None
  }

  function BasicMethod(id: uint16): Option<Sig> {
    match id
    case 10 => Some(Sig([LongK, ShortK], 1, [])) // qos
    case 11 => Some(Sig([], 0, [])) // qos-ok
    case 20 => Some(Sig([ShortK, ShortstrK, ShortstrK], 4, [TableK])) // consume
    case 21 => Some(Sig([ShortstrK], 0, [])) // consume-ok
    case 30 => Some(Sig([ShortstrK], 1, [])) // cancel
    case 31 => Some(Sig([ShortstrK], 0, [])) // cancel-ok
    case 40 => Some(Sig([ShortK, ShortstrK, ShortstrK], 2, [])) // publish
    case 50 => Some(Sig([ShortK, ShortstrK, ShortstrK, ShortstrK], 0, [])) // return
    case 60 => Some(Sig([ShortstrK, LongLongK], 1, [ShortstrK, ShortstrK])) // deliver
    case 70 => Some(Sig([ShortK, ShortstrK], 1, [])) // get
    case 71 => Some(Sig([LongLongK], 1, [ShortstrK, ShortstrK, LongK])) // get-ok
    case 72 => Some(Sig([ShortstrK], 0, [])) // get-empty
    case 80 => Some(Sig([LongLongK], 1, [])) // ack
    case 90 => Some(Sig([LongLongK], 1, [])) // reject
    case 100 => Some(Sig([], 1, [])) // recover-async
    case 110 => Some(Sig([], 1, [])) // recover
    case 111 => Some(Sig([], 0, [])) // recover-ok
    case 120 => Some(Sig([LongLongK], 2, [])) // nack
    case _ => None
  }

  function TxMethod(id: uint16): Option<Sig> {
    match id
    case 10 => Some(Sig([], 0, [])) // select
    case 11 => Some(Sig([], 0, [])) // select-ok
    case 20 => Some(Sig([], 0, [])) // commit
    case 21 => Some(Sig([], 0, [])) // commit-ok
    case 30 => Some(Sig([], 0, [])) // rollback
    case 31 => Some(Sig([], 0, [])) // rollback-ok
    case _ => None
  }

  function ConfirmMethod(id: uint16): Option<Sig> {
    match id
    case 10 => Some(Sig([], 1, [])) // select
    case 11 => Some(Sig([], 0, [])) // select-ok
    case _ => None
  }

  /** The dispatch of parseMethodFrame on class and method id. */
  function Amqp091(classId: uint16, id: uint16): Option<Sig> {
    match classId
    case 10 => ConnectionMethod(id)
    case 20 => ChannelMethod(id)
    case 40 => ExchangeMethod(id)
    case 50 => QueueMethod(id)
    case 60 => BasicMethod(id)
    case 90 => TxMethod(id)
    case 85 => ConfirmMethod(id)
    case _ => None
  }

  lemma {:induction false} Amqp091Valid()
    ensures ValidSpec(Amqp091)
  {
    forall c: uint16, m: uint16 | Amqp091(c, m).Some?
      ensures ValidSig(Amqp091(c, m).value)
    {
    }
  }
}
