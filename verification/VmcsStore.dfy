// The data of a VMCS as VMWRITE and VMREAD see it (section 24.11.2 of the Intel
// SDM): one value per field the processor supports, reached by full or high access.
module VmcsStore {
  import opened Fields

  // A field, whichever half an access goes to, and the bits it holds.
  datatype Field = Field(index: nat, typ: FieldType, width: Width)
  datatype Cell = Cell(bits: bv64)

  // The keys are the supported fields; their initial contents are arbitrary.
  type Store = map<Field, Cell>

  function FieldOf(f: Component): Field { Field(f.index, f.typ, f.width) }

  datatype Write = Write(field: Component, value: Cell)

  // The part of an operand that a field of some width takes.
  function Truncate(width: Width, v: Cell): Cell {
    match width
    case Word => Cell(v.bits & 0xFFFF)
    case DWord => Cell(v.bits & 0xFFFF_FFFF)
    case _ => v
  }

  /** A 16-bit field takes the low 16 bits of an operand, a 32-bit field the low 32, and any other
      all of it. */
  lemma TruncateByWidth(width: Width, v: Cell)
    ensures width.Word? ==> Truncate(width, v).bits < 0x1_0000 && (Truncate(width, v).bits ^ v.bits) & 0xFFFF == 0
    ensures width.DWord? ==>
              Truncate(width, v).bits < 0x1_0000_0000 && (Truncate(width, v).bits ^ v.bits) & 0xFFFF_FFFF == 0
    ensures width.QWord? || width.Natural? ==> Truncate(width, v) == v
  {
  }

  // A VMWRITE fails, leaving every field alone, when its field is not supported, is
  // read-only, or is accessed high without being 64 bits wide.
  predicate Writable(s: Store, f: Component) {
    && FieldOf(f) in s
    && !f.typ.ExitInfo?
    && (f.access.High? ==> f.width.QWord?)
  }

  // The new contents of a field that held c.
  function Updated(c: Cell, f: Component, v: Cell): Cell {
    if f.access.High? then Cell((c.bits & 0xFFFF_FFFF) | (v.bits << 32)) else Truncate(f.width, v)
  }

  // The two halves of a 64-bit value, as operands.
  function LowHalf(v: Cell): Cell { Cell(v.bits & 0xFFFF_FFFF) }
  function HighHalf(v: Cell): Cell { Cell(v.bits >> 32) }

  function Put(s: Store, w: Write): Store {
    if Writable(s, w.field)
    then s[FieldOf(w.field) := Updated(s[FieldOf(w.field)], w.field, w.value)]
    else s
  }

  function Apply(s: Store, ws: seq<Write>): (r: Store)
    ensures r.Keys == s.Keys
  {
    if |ws| == 0 then s else Put(Apply(s, ws[..|ws| - 1]), ws[|ws| - 1])
  }

  // The writes among ws that go to one field, in order.
  function To(ws: seq<Write>, field: Field): seq<Write> {
    if |ws| == 0 then []
    else
      var rest, w := To(ws[..|ws| - 1], field), ws[|ws| - 1];
      if FieldOf(w.field) == field then rest + [w] else rest
  }

  lemma PutIsLocal(a: Store, b: Store, w: Write, field: Field)
    requires a.Keys == b.Keys && field in a && a[field] == b[field]
    ensures Put(a, w).Keys == a.Keys
    ensures FieldOf(w.field) == field ==> Put(a, w)[field] == Put(b, w)[field]
    ensures FieldOf(w.field) != field ==> Put(a, w)[field] == a[field]
  {
  }

  lemma ApplySnoc(s: Store, ws: seq<Write>, w: Write)
    ensures Apply(s, ws + [w]) == Put(Apply(s, ws), w)
  {
    assert (ws + [w])[..|ws + [w]| - 1] == ws;
  }

  /** What a field holds after a run of VMWRITEs is decided by the writes to it alone. */
  lemma {:induction false} FieldIsLocal(s: Store, ws: seq<Write>, field: Field)
    requires field in s
    ensures Apply(s, ws)[field] == Apply(s, To(ws, field))[field]
  {
    if |ws| > 0 {
      var front, w := ws[..|ws| - 1], ws[|ws| - 1];
      FieldIsLocal(s, front, field);
      PutIsLocal(Apply(s, front), Apply(s, To(front, field)), w, field);
      ApplySnoc(s, To(front, field), w);
    }
  }

  ghost predicate SamePerField(ws: seq<Write>, vs: seq<Write>) {
    forall field :: To(ws, field) == To(vs, field)
  }

  /** Order independence: two runs of VMWRITEs that agree on the order of the writes to
      each single field leave the same VMCS, however they interleave different fields. */
  lemma OrderIndependent(s: Store, ws: seq<Write>, vs: seq<Write>)
    requires SamePerField(ws, vs)
    ensures Apply(s, ws) == Apply(s, vs)
  {
    forall field | field in s
      ensures Apply(s, ws)[field] == Apply(s, vs)[field]
    {
      FieldIsLocal(s, ws, field);
      FieldIsLocal(s, vs, field);
      assert To(ws, field) == To(vs, field);
    }
  }

  lemma {:induction false} ToContents(ws: seq<Write>, field: Field)
    ensures forall w :: multiset(To(ws, field))[w] == if FieldOf(w.field) == field then multiset(ws)[w] else 0
  {
    if |ws| > 0 {
      ToContents(ws[..|ws| - 1], field);
      assert ws == ws[..|ws| - 1] + [ws[|ws| - 1]];
    }
  }

  // No two writes go to the same field.
  ghost predicate DistinctFields(ws: seq<Write>) {
    forall i, j :: 0 <= i < j < |ws| ==> FieldOf(ws[i].field) != FieldOf(ws[j].field)
  }

  // At most one of the writes goes to a field.
  ghost predicate AtMostOnce(ws: seq<Write>, field: Field) {
    forall i, j :: 0 <= i < j < |ws| && FieldOf(ws[i].field) == field ==> FieldOf(ws[j].field) != field
  }

  lemma {:induction false} ToSingle(ws: seq<Write>, field: Field)
    requires AtMostOnce(ws, field)
    ensures |To(ws, field)| <= 1
    ensures To(ws, field) == [] <==> forall i :: 0 <= i < |ws| ==> FieldOf(ws[i].field) != field
  {
    if |ws| > 0 {
      var front := ws[..|ws| - 1];
      assert forall i :: 0 <= i < |front| ==> front[i] == ws[i];
      ToSingle(front, field);
    }
  }

  lemma SameToIfOnce(ws: seq<Write>, vs: seq<Write>, field: Field)
    requires AtMostOnce(ws, field) && multiset(ws) == multiset(vs)
    ensures To(ws, field) == To(vs, field)
  {
    ToSame(ws, vs, field);
    ToSingle(ws, field);
    SmallSameMultiset(To(ws, field), To(vs, field));
  }

  lemma ToSame(ws: seq<Write>, vs: seq<Write>, field: Field)
    requires multiset(ws) == multiset(vs)
    ensures multiset(To(ws, field)) == multiset(To(vs, field))
  {
    ToContents(ws, field);
    ToContents(vs, field);
  }

  /** VMWRITEs to pairwise distinct fields commute: every permutation of them leaves the
      same VMCS. */
  lemma PermutationsAgree(s: Store, ws: seq<Write>, vs: seq<Write>)
    requires DistinctFields(ws) && multiset(ws) == multiset(vs)
    ensures Apply(s, ws) == Apply(s, vs)
  {
    forall field
      ensures To(ws, field) == To(vs, field)
    {
      SameToIfOnce(ws, vs, field);
    }
    OrderIndependent(s, ws, vs);
  }

  lemma SmallSameMultiset<T>(a: seq<T>, b: seq<T>)
    requires |a| <= 1 && multiset(a) == multiset(b)
    ensures a == b
  {
    assert |multiset(a)| == |multiset(b)|;
    if |a| == 1 {
      assert b[0] in multiset(b);
      assert a[0] == b[0];
    }
  }

  // ws[i] is the last of ws to reach its field.
  ghost predicate LastTo(ws: seq<Write>, i: nat)
    requires i < |ws|
  {
    forall j :: i < j < |ws| ==> FieldOf(ws[j].field) != FieldOf(ws[i].field)
  }

  lemma PutWritten(s: Store, w: Write)
    requires Writable(s, w.field)
    ensures Put(s, w)[FieldOf(w.field)] == Updated(s[FieldOf(w.field)], w.field, w.value)
  {
  }

  /** The last write to a field decides what it holds; the earlier ones matter only
      through the half a high access keeps. */
  lemma {:induction false} LastWriteDecides(s: Store, ws: seq<Write>, i: nat)
    requires i < |ws| && LastTo(ws, i) && Writable(s, ws[i].field)
    ensures Apply(s, ws)[FieldOf(ws[i].field)]
            == Updated(Apply(s, ws[..i])[FieldOf(ws[i].field)], ws[i].field, ws[i].value)
    decreases |ws|
  {
    var front, w := ws[..|ws| - 1], ws[|ws| - 1];
    if i < |ws| - 1 {
      assert forall j :: 0 <= j < |front| ==> front[j] == ws[j];
      assert front[..i] == ws[..i];
      LastWriteDecides(s, front, i);
      PutIsLocal(Apply(s, front), Apply(s, front), w, FieldOf(ws[i].field));
    } else {
      PutWritten(Apply(s, front), w);
    }
  }

  lemma ToSnoc(ws: seq<Write>, w: Write, field: Field)
    ensures To(ws + [w], field) == if FieldOf(w.field) == field then To(ws, field) + [w] else To(ws, field)
  {
    assert (ws + [w])[..|ws + [w]| - 1] == ws;
  }

  lemma {:induction false} ToNone(ws: seq<Write>, vs: seq<Write>, field: Field)
    requires forall i :: 0 <= i < |vs| ==> FieldOf(vs[i].field) != field
    ensures To(ws + vs, field) == To(ws, field)
    decreases |vs|
  {
    if |vs| == 0 {
      assert ws + vs == ws;
    } else {
      assert ws + vs == (ws + vs[..|vs| - 1]) + [vs[|vs| - 1]];
      ToSnoc(ws + vs[..|vs| - 1], vs[|vs| - 1], field);
      ToNone(ws, vs[..|vs| - 1], field);
    }
  }

  lemma ToLast(ws: seq<Write>, field: Field) returns (i: nat)
    requires To(ws, field) != []
    ensures i < |ws| && LastTo(ws, i) && FieldOf(ws[i].field) == field
    ensures To(ws, field)[|To(ws, field)| - 1] == ws[i]
  {
    i := |ws| - 1;
    if FieldOf(ws[i].field) != field {
      i := ToLast(ws[..|ws| - 1], field);
      assert forall j :: 0 <= j < |ws| - 1 ==> ws[..|ws| - 1][j] == ws[j];
    }
  }

  // Writes p and p + 1 go to one field, by full and then by high access, and no other
  // write of ws goes there.
  ghost predicate OnlyPair(ws: seq<Write>, p: nat) {
    && p + 1 < |ws|
    && FieldOf(ws[p].field) == FieldOf(ws[p + 1].field)
    && ws[p].field.access.Full? && ws[p + 1].field.access.High?
    && forall i :: 0 <= i < |ws| && i != p && i != p + 1 ==> FieldOf(ws[i].field) != FieldOf(ws[p].field)
  }

  lemma PairTo(ws: seq<Write>, p: nat)
    requires OnlyPair(ws, p)
    ensures To(ws, FieldOf(ws[p].field)) == [ws[p], ws[p + 1]]
  {
    var field, a, b := FieldOf(ws[p].field), ws[..p], ws[p + 2..];
    var a1 := a + [ws[p]];
    var a2 := a1 + [ws[p + 1]];
    assert ws == a2 + b;
    ToNone(a2, b, field);
    ToSnoc(a1, ws[p + 1], field);
    ToSnoc(a, ws[p], field);
    assert [] + a == a;
    ToNone([], a, field);
  }

  // Any full write to the field comes before any high one.
  ghost predicate FullBeforeHigh(vs: seq<Write>, field: Field) {
    forall i, j :: (0 <= i < |vs| && 0 <= j < |vs| && FieldOf(vs[i].field) == FieldOf(vs[j].field) == field
                    && vs[i].field.access.Full? && vs[j].field.access.High?) ==> i < j
  }

  lemma TwoInOrder(t: seq<Write>, lo: Write, hi: Write)
    requires multiset(t) == multiset{lo, hi} && lo != hi
    requires t != [] && t[|t| - 1] != lo
    ensures t == [lo, hi]
  {
    assert |t| == |multiset(t)| == 2;
    assert t == [t[0], t[1]];
    assert lo in multiset(t) && hi in multiset(t);
    assert lo in t && hi in t;
  }

  lemma PairSame(ws: seq<Write>, vs: seq<Write>, p: nat)
    requires OnlyPair(ws, p) && multiset(ws) == multiset(vs) && FullBeforeHigh(vs, FieldOf(ws[p].field))
    ensures To(ws, FieldOf(ws[p].field)) == To(vs, FieldOf(ws[p].field))
  {
    var field, lo, hi := FieldOf(ws[p].field), ws[p], ws[p + 1];
    PairTo(ws, p);
    ToSame(ws, vs, field);
    var t := To(vs, field);
    assert multiset(t) == multiset{lo, hi};
    assert |t| == |multiset(t)| == 2;
    var i := ToLast(vs, field);
    assert hi in multiset(ws) && hi in multiset(vs);
    var j :| 0 <= j < |vs| && vs[j] == hi;
    if t[|t| - 1] == lo {
      assert false;
    }
    TwoInOrder(t, lo, hi);
  }

  ghost predicate HalvesOf(lo: Write, hi: Write, f: Component, v: Cell) {
    lo == Write(f, LowHalf(v)) && hi == Write(f.(access := High), HighHalf(v))
  }

  /** A pair of half writes leaves the whole value. */
  lemma PairWhole(s: Store, ws: seq<Write>, p: nat, f: Component, v: Cell)
    requires OnlyPair(ws, p) && HalvesOf(ws[p], ws[p + 1], f, v)
    requires Writable(s, f) && f.width.QWord?
    ensures Apply(s, ws)[FieldOf(f)] == v
  {
    LastWriteDecides(s, ws, p + 1);
    LastWriteDecides(s, ws[..p + 1], p);
    Halves(v.bits);
  }

  /** A low half by full access followed by the high half by high access leaves the
      whole value ... */
  lemma FullThenHigh(s: Store, f: Component, v: Cell)
    requires f.access.Full? && f.width.QWord? && Writable(s, f)
    ensures Apply(s, [Write(f, LowHalf(v)), Write(f.(access := High), HighHalf(v))])[FieldOf(f)] == v
  {
    ApplyTwo(s, Write(f, LowHalf(v)), Write(f.(access := High), HighHalf(v)));
    Halves(v.bits);
  }

  /** ... and in the other order the high half survives only if it was zero. */
  lemma HighThenFull(s: Store, f: Component, v: Cell)
    requires f.access.Full? && f.width.QWord? && Writable(s, f)
    ensures Apply(s, [Write(f.(access := High), HighHalf(v)), Write(f, LowHalf(v))])[FieldOf(f)] == LowHalf(v)
    ensures LowHalf(v) == v <==> v.bits >> 32 == 0
  {
    ApplyTwo(s, Write(f.(access := High), HighHalf(v)), Write(f, LowHalf(v)));
    LowHalfIff(v.bits);
  }

  lemma LowHalfIff(v: bv64)
    ensures v & 0xFFFF_FFFF == v <==> v >> 32 == 0
  {
  }

  lemma ApplyTwo(s: Store, w: Write, x: Write)
    requires Writable(s, w.field) && Writable(s, x.field) && FieldOf(w.field) == FieldOf(x.field)
    ensures Apply(s, [w, x])[FieldOf(w.field)]
            == Updated(Updated(s[FieldOf(w.field)], w.field, w.value), x.field, x.value)
  {
    assert [w, x] == ([] + [w]) + [x];
    ApplySnoc(s, [] + [w], x);
    ApplySnoc(s, [], w);
    PutWritten(s, w);
    PutWritten(Put(s, w), x);
  }

  lemma Halves(v: bv64)
    ensures ((v & 0xFFFF_FFFF) & 0xFFFF_FFFF) | ((v >> 32) << 32) == v
  {
  }
}
