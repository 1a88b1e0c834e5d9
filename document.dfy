/*
 * SIE4Document: a mutable holder with one field per item type, a
 * single item for the types a file has at most once and a list for the
 * others.  It is built from a parsed list, from a Builder, or field by
 * field through its setters, and lists its items back in the order of
 * the item types.
 */
module Document {
  import opened Wrappers
  import opened Numbers
  import opened Calendar
  import opened Values
  import opened Items
  import opened Content

  /** A field that may be null, as the list of the items it contributes: none or one. */
  function Opt(o: Option<Record>): seq<Record> {
    if o.Some? then [o.value] else []
  }

  /** The fields of a document, in declaration order; an absent single item is null in the source. */
  datatype Fields = Fields(    flagga: Option<Record>,
    program: Option<Record>,
    format: Option<Record>,
    gen: Option<Record>,
    sietyp: Option<Record>,
    prosa: Option<Record>,
    ftyp: Option<Record>,
    fnr: Option<Record>,
    orgnr: Option<Record>,
    bkod: Option<Record>,
    adress: Option<Record>,
    fnamn: Option<Record>,
    rar: seq<Record>,
    taxar: Option<Record>,
    omfattn: Option<Record>,
    kptyp: Option<Record>,
    valuta: Option<Record>,
    konto: seq<Record>,
    ktyp: seq<Record>,
    enhet: seq<Record>,
    sru: seq<Record>,
    dim: seq<Record>,
    underdim: seq<Record>,
    objekt: seq<Record>,
    ib: seq<Record>,
    ub: seq<Record>,
    oib: seq<Record>,
    oub: seq<Record>,
    res: seq<Record>,
    psaldo: seq<Record>,
    pbudget: seq<Record>,
    ver: seq<Record>)

  /** Every field holds records of its own type, as the field types of the source guarantee. */
  predicate Typed(f: Fields) {
    (f.flagga.Some? ==> f.flagga.value.Flagga?)
    && (f.program.Some? ==> f.program.value.Program?)
    && (f.format.Some? ==> f.format.value.Format?)
    && (f.gen.Some? ==> f.gen.value.Gen?)
    && (f.sietyp.Some? ==> f.sietyp.value.Sietyp?)
    && (f.prosa.Some? ==> f.prosa.value.Prosa?)
    && (f.ftyp.Some? ==> f.ftyp.value.Ftyp?)
    && (f.fnr.Some? ==> f.fnr.value.Fnr?)
    && (f.orgnr.Some? ==> f.orgnr.value.OrgNr?)
    && (f.bkod.Some? ==> f.bkod.value.Bkod?)
    && (f.adress.Some? ==> f.adress.value.Adress?)
    && (f.fnamn.Some? ==> f.fnamn.value.Fnamn?)
    && (forall x :: x in f.rar ==> x.Rar?)
    && (f.taxar.Some? ==> f.taxar.value.Taxar?)
    && (f.omfattn.Some? ==> f.omfattn.value.Omfattn?)
    && (f.kptyp.Some? ==> f.kptyp.value.Kptyp?)
    && (f.valuta.Some? ==> f.valuta.value.Valuta?)
    && (forall x :: x in f.konto ==> x.Konto?)
    && (forall x :: x in f.ktyp ==> x.Ktyp?)
    && (forall x :: x in f.enhet ==> x.Enhet?)
    && (forall x :: x in f.sru ==> x.Sru?)
    && (forall x :: x in f.dim ==> x.Dim?)
    && (forall x :: x in f.underdim ==> x.Underdim?)
    && (forall x :: x in f.objekt ==> x.Objekt?)
    && (forall x :: x in f.ib ==> x.Ib?)
    && (forall x :: x in f.ub ==> x.Ub?)
    && (forall x :: x in f.oib ==> x.Oib?)
    && (forall x :: x in f.oub ==> x.Oub?)
    && (forall x :: x in f.res ==> x.Res?)
    && (forall x :: x in f.psaldo ==> x.Psaldo?)
    && (forall x :: x in f.pbudget ==> x.Pbudget?)
    && (forall x :: x in f.ver ==> x.Ver?)
  }

  /** The arguments of the private constructor, and the fields of a Builder: any of them may be null. */
  datatype Parts = Parts(    flagga: Option<Record>,
    program: Option<Record>,
    format: Option<Record>,
    gen: Option<Record>,
    sietyp: Option<Record>,
    prosa: Option<Record>,
    ftyp: Option<Record>,
    fnr: Option<Record>,
    orgnr: Option<Record>,
    bkod: Option<Record>,
    adress: Option<Record>,
    fnamn: Option<Record>,
    rar: Option<seq<Record>>,
    taxar: Option<Record>,
    omfattn: Option<Record>,
    kptyp: Option<Record>,
    valuta: Option<Record>,
    konto: Option<seq<Record>>,
    ktyp: Option<seq<Record>>,
    enhet: Option<seq<Record>>,
    sru: Option<seq<Record>>,
    dim: Option<seq<Record>>,
    underdim: Option<seq<Record>>,
    objekt: Option<seq<Record>>,
    ib: Option<seq<Record>>,
    ub: Option<seq<Record>>,
    oib: Option<seq<Record>>,
    oub: Option<seq<Record>>,
    res: Option<seq<Record>>,
    psaldo: Option<seq<Record>>,
    pbudget: Option<seq<Record>>,
    ver: Option<seq<Record>>)

  /** Every part that is present holds records of its own type. */
  predicate PartsTyped(p: Parts) {
    (p.flagga.Some? ==> p.flagga.value.Flagga?)
    && (p.program.Some? ==> p.program.value.Program?)
    && (p.format.Some? ==> p.format.value.Format?)
    && (p.gen.Some? ==> p.gen.value.Gen?)
    && (p.sietyp.Some? ==> p.sietyp.value.Sietyp?)
    && (p.prosa.Some? ==> p.prosa.value.Prosa?)
    && (p.ftyp.Some? ==> p.ftyp.value.Ftyp?)
    && (p.fnr.Some? ==> p.fnr.value.Fnr?)
    && (p.orgnr.Some? ==> p.orgnr.value.OrgNr?)
    && (p.bkod.Some? ==> p.bkod.value.Bkod?)
    && (p.adress.Some? ==> p.adress.value.Adress?)
    && (p.fnamn.Some? ==> p.fnamn.value.Fnamn?)
    && (p.rar.Some? ==> forall x :: x in p.rar.value ==> x.Rar?)
    && (p.taxar.Some? ==> p.taxar.value.Taxar?)
    && (p.omfattn.Some? ==> p.omfattn.value.Omfattn?)
    && (p.kptyp.Some? ==> p.kptyp.value.Kptyp?)
    && (p.valuta.Some? ==> p.valuta.value.Valuta?)
    && (p.konto.Some? ==> forall x :: x in p.konto.value ==> x.Konto?)
    && (p.ktyp.Some? ==> forall x :: x in p.ktyp.value ==> x.Ktyp?)
    && (p.enhet.Some? ==> forall x :: x in p.enhet.value ==> x.Enhet?)
    && (p.sru.Some? ==> forall x :: x in p.sru.value ==> x.Sru?)
    && (p.dim.Some? ==> forall x :: x in p.dim.value ==> x.Dim?)
    && (p.underdim.Some? ==> forall x :: x in p.underdim.value ==> x.Underdim?)
    && (p.objekt.Some? ==> forall x :: x in p.objekt.value ==> x.Objekt?)
    && (p.ib.Some? ==> forall x :: x in p.ib.value ==> x.Ib?)
    && (p.ub.Some? ==> forall x :: x in p.ub.value ==> x.Ub?)
    && (p.oib.Some? ==> forall x :: x in p.oib.value ==> x.Oib?)
    && (p.oub.Some? ==> forall x :: x in p.oub.value ==> x.Oub?)
    && (p.res.Some? ==> forall x :: x in p.res.value ==> x.Res?)
    && (p.psaldo.Some? ==> forall x :: x in p.psaldo.value ==> x.Psaldo?)
    && (p.pbudget.Some? ==> forall x :: x in p.pbudget.value ==> x.Pbudget?)
    && (p.ver.Some? ==> forall x :: x in p.ver.value ==> x.Ver?)
  }

  /** A Builder nobody has set anything on. */
  const NoParts: Parts := Parts(None, None, None, None, None, None, None, None, None, None, None, None, None, None, None, None, None, None, None, None, None, None, None, None, None, None, None, None, None, None, None, None)

  /** Flagga.UNSET */
  const UnsetFlagga: Record := Flagga(0)

  /** Format.pc8() */
  const Pc8Format: Record := Format("PC8")

  /** A list that may be null, read as empty when it is. */
  function OrEmpty(o: Option<seq<Record>>): seq<Record> {
    if o.Some? then o.value else []
  }

  /** A single item that may be null, replaced by a default when it is. */
  function OrElse(o: Option<Record>, default: Record): Option<Record> {
    if o.Some? then o else Some(default)
  }

  /**
   * The private constructor: an absent FLAGGA becomes UNSET, an absent
   * FORMAT becomes PC8, an absent list becomes empty, and every other
   * part is kept as given.
   */
  function Defaulted(p: Parts): (f: Fields)
    ensures f.flagga.Some? && f.format.Some?
    ensures f.flagga == (if p.flagga.Some? then p.flagga else Some(UnsetFlagga))
    ensures f.format == (if p.format.Some? then p.format else Some(Pc8Format))
  {
    Fields(
      OrElse(p.flagga, UnsetFlagga),
      p.program,
      OrElse(p.format, Pc8Format),
      p.gen,
      p.sietyp,
      p.prosa,
      p.ftyp,
      p.fnr,
      p.orgnr,
      p.bkod,
      p.adress,
      p.fnamn,
      OrEmpty(p.rar),
      p.taxar,
      p.omfattn,
      p.kptyp,
      p.valuta,
      OrEmpty(p.konto),
      OrEmpty(p.ktyp),
      OrEmpty(p.enhet),
      OrEmpty(p.sru),
      OrEmpty(p.dim),
      OrEmpty(p.underdim),
      OrEmpty(p.objekt),
      OrEmpty(p.ib),
      OrEmpty(p.ub),
      OrEmpty(p.oib),
      OrEmpty(p.oub),
      OrEmpty(p.res),
      OrEmpty(p.psaldo),
      OrEmpty(p.pbudget),
      OrEmpty(p.ver))
  }

  /** The item types a document has a field for, in declaration order: every type but the transactions. */
  const FieldOrder: seq<ItemType> := [FLAGGA, PROGRAM, FORMAT, GEN, SIETYP, PROSA, FTYP, FNR, ORGNR, BKOD, ADRESS, FNAMN, RAR, TAXAR, OMFATTN, KPTYP, VALUTA, KONTO, KTYP, ENHET, SRU, DIM, UNDERDIM, OBJEKT, IB, UB, OIB, OUB, RES, PSALDO, PBUDGET, VER]

  /** The document's field for a type, as a list; a transaction type has no field. */
  function SegmentAt(f: Fields, t: ItemType): seq<Record> {
    match t
    case FLAGGA => Opt(f.flagga)
    case PROGRAM => Opt(f.program)
    case FORMAT => Opt(f.format)
    case GEN => Opt(f.gen)
    case SIETYP => Opt(f.sietyp)
    case PROSA => Opt(f.prosa)
    case FTYP => Opt(f.ftyp)
    case FNR => Opt(f.fnr)
    case ORGNR => Opt(f.orgnr)
    case BKOD => Opt(f.bkod)
    case ADRESS => Opt(f.adress)
    case FNAMN => Opt(f.fnamn)
    case RAR => f.rar
    case TAXAR => Opt(f.taxar)
    case OMFATTN => Opt(f.omfattn)
    case KPTYP => Opt(f.kptyp)
    case VALUTA => Opt(f.valuta)
    case KONTO => f.konto
    case KTYP => f.ktyp
    case ENHET => f.enhet
    case SRU => f.sru
    case DIM => f.dim
    case UNDERDIM => f.underdim
    case OBJEKT => f.objekt
    case IB => f.ib
    case UB => f.ub
    case OIB => f.oib
    case OUB => f.oub
    case RES => f.res
    case PSALDO => f.psaldo
    case PBUDGET => f.pbudget
    case VER => f.ver
    case TRANS => []
    case RTRANS => []
    case BTRANS => []
  }

  /** The field types come in the order of the enumeration, from its start. */
  lemma {:induction false} FieldOrderOrdinal(k: nat)
    requires k < |FieldOrder|
    ensures Ordinal(FieldOrder[k]) == k
  {
    if k < 8 { FieldOrderOrdinal0(k); }
    else if k < 16 { FieldOrderOrdinal1(k); }
    else if k < 24 { FieldOrderOrdinal2(k); }
    else { FieldOrderOrdinal3(k); }
  }

  lemma {:induction false} FieldOrderOrdinal0(k: nat)
    requires 0 <= k < 8
    ensures k < |FieldOrder| && Ordinal(FieldOrder[k]) == k
  {
    if k == 0 {
      assert FieldOrder[0] == FLAGGA;
    } else if k == 1 {
      assert FieldOrder[1] == PROGRAM;
    } else if k == 2 {
      assert FieldOrder[2] == FORMAT;
    } else if k == 3 {
      assert FieldOrder[3] == GEN;
    } else if k == 4 {
      assert FieldOrder[4] == SIETYP;
    } else if k == 5 {
      assert FieldOrder[5] == PROSA;
    } else if k == 6 {
      assert FieldOrder[6] == FTYP;
    } else {
      assert FieldOrder[7] == FNR;
    }
  }

  lemma {:induction false} FieldOrderOrdinal1(k: nat)
    requires 8 <= k < 16
    ensures k < |FieldOrder| && Ordinal(FieldOrder[k]) == k
  {
    if k == 8 {
      assert FieldOrder[8] == ORGNR;
    } else if k == 9 {
      assert FieldOrder[9] == BKOD;
    } else if k == 10 {
      assert FieldOrder[10] == ADRESS;
    } else if k == 11 {
      assert FieldOrder[11] == FNAMN;
    } else if k == 12 {
      assert FieldOrder[12] == RAR;
    } else if k == 13 {
      assert FieldOrder[13] == TAXAR;
    } else if k == 14 {
      assert FieldOrder[14] == OMFATTN;
    } else {
      assert FieldOrder[15] == KPTYP;
    }
  }

  lemma {:induction false} FieldOrderOrdinal2(k: nat)
    requires 16 <= k < 24
    ensures k < |FieldOrder| && Ordinal(FieldOrder[k]) == k
  {
    if k == 16 {
      assert FieldOrder[16] == VALUTA;
    } else if k == 17 {
      assert FieldOrder[17] == KONTO;
    } else if k == 18 {
      assert FieldOrder[18] == KTYP;
    } else if k == 19 {
      assert FieldOrder[19] == ENHET;
    } else if k == 20 {
      assert FieldOrder[20] == SRU;
    } else if k == 21 {
      assert FieldOrder[21] == DIM;
    } else if k == 22 {
      assert FieldOrder[22] == UNDERDIM;
    } else {
      assert FieldOrder[23] == OBJEKT;
    }
  }

  lemma {:induction false} FieldOrderOrdinal3(k: nat)
    requires 24 <= k < 32
    ensures k < |FieldOrder| && Ordinal(FieldOrder[k]) == k
  {
    if k == 24 {
      assert FieldOrder[24] == IB;
    } else if k == 25 {
      assert FieldOrder[25] == UB;
    } else if k == 26 {
      assert FieldOrder[26] == OIB;
    } else if k == 27 {
      assert FieldOrder[27] == OUB;
    } else if k == 28 {
      assert FieldOrder[28] == RES;
    } else if k == 29 {
      assert FieldOrder[29] == PSALDO;
    } else if k == 30 {
      assert FieldOrder[30] == PBUDGET;
    } else {
      assert FieldOrder[31] == VER;
    }
  }

  /** Every type but the three transaction types has a field. */
  lemma {:induction false} FieldOrderAt(t: ItemType)
    requires Ordinal(t) < |FieldOrder|
    ensures FieldOrder[Ordinal(t)] == t
  {
    match t
    case FLAGGA =>
    case PROGRAM =>
    case FORMAT =>
    case GEN =>
    case SIETYP =>
    case PROSA =>
    case FTYP =>
    case FNR =>
    case ORGNR =>
    case BKOD =>
    case ADRESS =>
    case FNAMN =>
    case RAR =>
    case TAXAR =>
    case OMFATTN =>
    case KPTYP =>
    case VALUTA =>
    case KONTO =>
    case KTYP =>
    case ENHET =>
    case SRU =>
    case DIM =>
    case UNDERDIM =>
    case OBJEKT =>
    case IB =>
    case UB =>
    case OIB =>
    case OUB =>
    case RES =>
    case PSALDO =>
    case PBUDGET =>
    case VER =>
    case TRANS =>
    case RTRANS =>
    case BTRANS =>
  }

  /** Types in strictly increasing enumeration order, hence each at most once. */
  predicate Increasing(ts: seq<ItemType>) {
    forall i, j :: 0 <= i < j < |ts| ==> Ordinal(ts[i]) < Ordinal(ts[j])
  }

  lemma {:induction false} FieldOrderIncreasing()
    ensures Increasing(FieldOrder)
  {
    forall i, j | 0 <= i < j < |FieldOrder|
      ensures Ordinal(FieldOrder[i]) < Ordinal(FieldOrder[j])
    {
      FieldOrderOrdinal(i);
      FieldOrderOrdinal(j);
    }
  }

  lemma {:induction false} IncreasingTail(ts: seq<ItemType>)
    requires Increasing(ts) && |ts| > 0
    ensures Increasing(ts[1..])
    ensures forall t :: t in ts[1..] ==> Ordinal(ts[0]) < Ordinal(t)
  {
    forall t | t in ts[1..]
      ensures Ordinal(ts[0]) < Ordinal(t)
    {
      var j :| 0 <= j < |ts[1..]| && ts[1..][j] == t;
      assert ts[j + 1] == t;
    }
  }

  /** A record's type has a field exactly when the record is not a transaction. */
  lemma {:induction false} FieldTypeOf(r: Record)
    ensures TypeOf(r) in FieldOrder <==> !r.Tx?
  {
    var t := TypeOf(r);
    TransactionRanks(r);
    if Ordinal(t) < |FieldOrder| {
      FieldOrderAt(t);
    }
    if t in FieldOrder {
      var k :| 0 <= k < |FieldOrder| && FieldOrder[k] == t;
      FieldOrderOrdinal(k);
    }
  }

  /** Only the three transaction types lie beyond the document's fields. */
  lemma {:induction false} TransactionRanks(r: Record)
    ensures Ordinal(TypeOf(r)) < |FieldOrder| <==> !r.Tx?
  {
  }

  /** Each field of a typed document holds records of the field's type only. */
  lemma {:induction false} SegmentTyped(f: Fields, t: ItemType)
    requires Typed(f)
    ensures forall x :: x in SegmentAt(f, t) ==> HasType(x, t)
  {
  }

  /** A record has one type only. */
  lemma {:induction false} OtherType(x: Record, a: ItemType, b: ItemType)
    requires a != b && HasType(x, a)
    ensures !HasType(x, b)
  {
    HasTypeTypeOf(x, a);
    HasTypeTypeOf(x, b);
  }

  /** Filtering a field by a type keeps all of it for the field's own type and nothing for any other. */
  lemma {:induction false} FilterSegment(f: Fields, t: ItemType, u: ItemType)
    requires Typed(f)
    ensures Filter(SegmentAt(f, t), u) == (if t == u then SegmentAt(f, t) else [])
  {
    if t == u {
      FilterOwnSegment(f, t);
    } else {
      FilterOtherSegment(f, t, u);
    }
  }

  lemma {:induction false} FilterOwnSegment(f: Fields, t: ItemType)
    requires Typed(f)
    ensures Filter(SegmentAt(f, t), t) == SegmentAt(f, t)
  {
    var seg := SegmentAt(f, t);
    SegmentTyped(f, t);
    assert forall i :: 0 <= i < |seg| ==> seg[i] in seg;
    FilterKeepsAll(seg, t);
  }

  lemma {:induction false} FilterOtherSegment(f: Fields, t: ItemType, u: ItemType)
    requires Typed(f) && t != u
    ensures Filter(SegmentAt(f, t), u) == []
  {
    var seg := SegmentAt(f, t);
    SegmentTyped(f, t);
    forall i | 0 <= i < |seg|
      ensures !HasType(seg[i], u)
    {
      assert seg[i] in seg;
      OtherType(seg[i], t, u);
    }
    FilterDropsAll(seg, u);
  }

  /** The fields of the given types, concatenated in that order. */
  function ListingOf(f: Fields, ts: seq<ItemType>): seq<Record> {
    if |ts| == 0 then [] else SegmentAt(f, ts[0]) + ListingOf(f, ts[1..])
  }

  /** getItems: every field in the order of the item types, absent single items skipped. */
  function Listing(f: Fields): seq<Record> {
    ListingOf(f, FieldOrder)
  }

  lemma {:induction false} FilterListingOf(f: Fields, ts: seq<ItemType>, t: ItemType)
    requires Typed(f) && Increasing(ts)
    ensures Filter(ListingOf(f, ts), t) == (if t in ts then SegmentAt(f, t) else [])
  {
    if |ts| > 0 {
      var u, rest := ts[0], ts[1..];
      FilterAppend(SegmentAt(f, u), ListingOf(f, rest), t);
      FilterSegment(f, u, t);
      IncreasingTail(ts);
      FilterListingOf(f, rest, t);
      assert t in ts <==> t == u || t in rest;
    }
  }

  /** getItems lists every field in full: filtering the list by a type gives back that type's field. */
  lemma {:induction false} FilterListing(f: Fields, t: ItemType)
    requires Typed(f) && Ordinal(t) < |FieldOrder|
    ensures Filter(Listing(f), t) == SegmentAt(f, t)
  {
    FieldOrderIncreasing();
    FieldOrderAt(t);
    assert t in FieldOrder;
    FilterListingOf(f, FieldOrder, t);
  }

  /** The position of a record's type in the enumeration. */
  function Rank(x: Record): nat {
    Ordinal(TypeOf(x))
  }

  /** Records in the order of their types. */
  predicate SortedByType(s: seq<Record>) {
    forall i, j :: 0 <= i < j < |s| ==> Rank(s[i]) <= Rank(s[j])
  }

  lemma {:induction false} SortedConcat(a: seq<Record>, b: seq<Record>)
    requires SortedByType(a) && SortedByType(b)
    requires forall x, y :: x in a && y in b ==> Rank(x) <= Rank(y)
    ensures SortedByType(a + b)
  {
    var all := a + b;
    forall i, j | 0 <= i < j < |all|
      ensures Rank(all[i]) <= Rank(all[j])
    {
      if j < |a| {
        assert all[i] == a[i] && all[j] == a[j];
      } else if i < |a| {
        assert all[i] == a[i] && a[i] in a;
        assert all[j] == b[j - |a|] && b[j - |a|] in b;
      } else {
        assert all[i] == b[i - |a|] && all[j] == b[j - |a|];
      }
    }
  }

  /** Every record of a field has the field's type. */
  lemma {:induction false} SegmentRanks(f: Fields, t: ItemType)
    requires Typed(f)
    ensures forall x :: x in SegmentAt(f, t) ==> TypeOf(x) == t
    ensures SortedByType(SegmentAt(f, t))
  {
    var seg := SegmentAt(f, t);
    SegmentTyped(f, t);
    forall x | x in seg
      ensures TypeOf(x) == t
    {
      HasTypeTypeOf(x, t);
    }
    forall i, j | 0 <= i < j < |seg|
      ensures Rank(seg[i]) <= Rank(seg[j])
    {
      assert seg[i] in seg && seg[j] in seg;
    }
  }

  lemma {:induction false} ListingOfOrdered(f: Fields, ts: seq<ItemType>)
    requires Typed(f) && Increasing(ts)
    ensures forall x :: x in ListingOf(f, ts) ==> TypeOf(x) in ts
    ensures SortedByType(ListingOf(f, ts))
  {
    if |ts| > 0 {
      var seg := SegmentAt(f, ts[0]);
      var rest := ListingOf(f, ts[1..]);
      IncreasingTail(ts);
      ListingOfOrdered(f, ts[1..]);
      SegmentRanks(f, ts[0]);
      forall x, y | x in seg && y in rest
        ensures Rank(x) <= Rank(y)
      {
      }
      SortedConcat(seg, rest);
      forall x | x in seg + rest
        ensures TypeOf(x) in ts
      {
        assert x in seg || x in rest;
        assert TypeOf(x) == ts[0] || TypeOf(x) in ts[1..];
      }
    }
  }

  /**
   * getItems lists the items in the order of the item types, FLAGGA
   * first and VER last, and so holds no transaction.
   */
  lemma {:induction false} ListingOrdered(f: Fields)
    requires Typed(f)
    ensures SortedByType(Listing(f))
    ensures forall x :: x in Listing(f) ==> !x.Tx?
  {
    FieldOrderIncreasing();
    ListingOfOrdered(f, FieldOrder);
    forall x | x in Listing(f)
      ensures !x.Tx?
    {
      FieldTypeOf(x);
    }
  }

  /** One step of getItems: appending the field at position `k` keeps the rest of the listing to come. */
  lemma {:induction false} ListingStep(f: Fields, k: nat, t: ItemType, acc: seq<Record>)
    requires k < |FieldOrder| && FieldOrder[k] == t
    ensures acc + ListingOf(f, FieldOrder[k..]) == (acc + SegmentAt(f, t)) + ListingOf(f, FieldOrder[k + 1..])
  {
    var ts := FieldOrder[k..];
    assert ts[0] == t && ts[1..] == FieldOrder[k + 1..];
    var seg, rest := SegmentAt(f, t), ListingOf(f, FieldOrder[k + 1..]);
    assert ListingOf(f, ts) == seg + rest;
    assert acc + (seg + rest) == (acc + seg) + rest;
  }

  /** No item type held by a single-item field has more than one item in the list. */
  predicate AtMostOne(items: seq<Record>) {
    !Several(items, FLAGGA)
    && !Several(items, PROGRAM)
    && !Several(items, FORMAT)
    && !Several(items, GEN)
    && !Several(items, SIETYP)
    && !Several(items, PROSA)
    && !Several(items, FTYP)
    && !Several(items, FNR)
    && !Several(items, ORGNR)
    && !Several(items, BKOD)
    && !Several(items, ADRESS)
    && !Several(items, FNAMN)
    && !Several(items, TAXAR)
    && !Several(items, OMFATTN)
    && !Several(items, KPTYP)
    && !Several(items, VALUTA)
  }
  /** Defaults are typed, so typed parts give typed fields. */
  lemma {:induction false} DefaultedTyped(p: Parts)
    requires PartsTyped(p)
    ensures Typed(Defaulted(p))
  {
  }

  /** The first of a list's items, if any: what getItem finds when it does not fail. */
  function First(s: seq<Record>): Option<Record> {
    if |s| == 0 then None else Some(s[0])
  }

  /** A list of at most one item is the item getItem finds, as a list. */
  lemma {:induction false} FirstMirrors(s: seq<Record>)
    requires |s| <= 1
    ensures Opt(First(s)) == s
  {
  }

  /** The item getItem finds is one of the list's items. */
  lemma {:induction false} FirstIn(s: seq<Record>)
    ensures First(s).Some? ==> First(s).value in s
  {
  }

  /** getItem, when it does not fail, finds the first item of its type. */
  lemma {:induction false} GetItemFirst(items: seq<Record>, t: ItemType)
    requires !Several(items, t)
    ensures GetItem(items, t) == Ok(First(Filter(items, t)))
  {
    SeveralIff(items, t);
  }

  /** The items of each type in a list. */
  function SegmentsOf(items: seq<Record>): ItemType -> seq<Record> {
    t => Filter(items, t)
  }

  /**
   * The parts a list gives the private constructor: the first item of
   * each single-item type, every item of each list type.
   */
  function PartsFrom(seg: ItemType -> seq<Record>): Parts {
    Parts(
      First(seg(FLAGGA)),
      First(seg(PROGRAM)),
      First(seg(FORMAT)),
      First(seg(GEN)),
      First(seg(SIETYP)),
      First(seg(PROSA)),
      First(seg(FTYP)),
      First(seg(FNR)),
      First(seg(ORGNR)),
      First(seg(BKOD)),
      First(seg(ADRESS)),
      First(seg(FNAMN)),
      Some(seg(RAR)),
      First(seg(TAXAR)),
      First(seg(OMFATTN)),
      First(seg(KPTYP)),
      First(seg(VALUTA)),
      Some(seg(KONTO)),
      Some(seg(KTYP)),
      Some(seg(ENHET)),
      Some(seg(SRU)),
      Some(seg(DIM)),
      Some(seg(UNDERDIM)),
      Some(seg(OBJEKT)),
      Some(seg(IB)),
      Some(seg(UB)),
      Some(seg(OIB)),
      Some(seg(OUB)),
      Some(seg(RES)),
      Some(seg(PSALDO)),
      Some(seg(PBUDGET)),
      Some(seg(VER)))
  }

  /** The fields a document takes from the items of each type, FLAGGA and FORMAT defaulted. */
  function FieldsFrom(seg: ItemType -> seq<Record>): Fields {
    Defaulted(PartsFrom(seg))
  }

  /** The fields the public constructor gives the private one, when no lookup fails. */
  function FieldsOf(items: seq<Record>): Fields {
    FieldsFrom(SegmentsOf(items))
  }

  /**
   * The arguments the public constructor SIE4Document(items) passes on:
   * getItem for every single field, in declaration order, failing on the
   * first type that has several items; getItems for every list field.
   */
  function ItemsParts(items: seq<Record>): (r: Result<Parts>)
    ensures r.Ok? <==> AtMostOne(items)
  {
    var flagga :- GetItem(items, FLAGGA);
    var program :- GetItem(items, PROGRAM);
    var format :- GetItem(items, FORMAT);
    var gen :- GetItem(items, GEN);
    var sietyp :- GetItem(items, SIETYP);
    var prosa :- GetItem(items, PROSA);
    var ftyp :- GetItem(items, FTYP);
    var fnr :- GetItem(items, FNR);
    var orgnr :- GetItem(items, ORGNR);
    var bkod :- GetItem(items, BKOD);
    var adress :- GetItem(items, ADRESS);
    var fnamn :- GetItem(items, FNAMN);
    var taxar :- GetItem(items, TAXAR);
    var omfattn :- GetItem(items, OMFATTN);
    var kptyp :- GetItem(items, KPTYP);
    var valuta :- GetItem(items, VALUTA);
    Ok(Parts(
      flagga,
      program,
      format,
      gen,
      sietyp,
      prosa,
      ftyp,
      fnr,
      orgnr,
      bkod,
      adress,
      fnamn,
      Some(Filter(items, RAR)),
      taxar,
      omfattn,
      kptyp,
      valuta,
      Some(Filter(items, KONTO)),
      Some(Filter(items, KTYP)),
      Some(Filter(items, ENHET)),
      Some(Filter(items, SRU)),
      Some(Filter(items, DIM)),
      Some(Filter(items, UNDERDIM)),
      Some(Filter(items, OBJEKT)),
      Some(Filter(items, IB)),
      Some(Filter(items, UB)),
      Some(Filter(items, OIB)),
      Some(Filter(items, OUB)),
      Some(Filter(items, RES)),
      Some(Filter(items, PSALDO)),
      Some(Filter(items, PBUDGET)),
      Some(Filter(items, VER))))
  }

  /** The public constructor: the looked-up parts through the private, defaulting one. */
  function ItemsFields(items: seq<Record>): (r: Result<Fields>)
    ensures r.Ok? <==> AtMostOne(items)
  {
    var p :- ItemsParts(items);
    Ok(Defaulted(p))
  }

  /** When no lookup fails, the constructor is given the first item of each single type. */
  lemma {:induction false} ItemsPartsValue(items: seq<Record>)
    requires AtMostOne(items)
    ensures ItemsParts(items) == Ok(PartsFrom(SegmentsOf(items)))
  {
    GetItemFirst(items, FLAGGA);
    GetItemFirst(items, PROGRAM);
    GetItemFirst(items, FORMAT);
    GetItemFirst(items, GEN);
    GetItemFirst(items, SIETYP);
    GetItemFirst(items, PROSA);
    GetItemFirst(items, FTYP);
    GetItemFirst(items, FNR);
    GetItemFirst(items, ORGNR);
    GetItemFirst(items, BKOD);
    GetItemFirst(items, ADRESS);
    GetItemFirst(items, FNAMN);
    GetItemFirst(items, TAXAR);
    GetItemFirst(items, OMFATTN);
    GetItemFirst(items, KPTYP);
    GetItemFirst(items, VALUTA);
  }

  /** When no lookup fails, the document holds the fields taken from the items of each type. */
  lemma {:induction false} ItemsFieldsValue(items: seq<Record>)
    requires AtMostOne(items)
    ensures ItemsFields(items) == Ok(FieldsOf(items))
  {
    ItemsPartsValue(items);
  }

  /** The items of each type that a list field keeps have that type. */
  lemma {:induction false} FilterTyped(items: seq<Record>, t: ItemType)
    ensures forall x :: x in Filter(items, t) ==> HasType(x, t)
  {
    FilterMembers(items, t);
  }

  /** Parts taken from segments whose items have the segment's type are typed. */
  lemma {:induction false} PartsFromTyped(seg: ItemType -> seq<Record>)
    requires forall t, x :: x in seg(t) ==> HasType(x, t)
    ensures PartsTyped(PartsFrom(seg))
  {
    PartsFromTypedFlagga(seg);
    PartsFromTypedProgram(seg);
    PartsFromTypedFormat(seg);
    PartsFromTypedGen(seg);
    PartsFromTypedSietyp(seg);
    PartsFromTypedProsa(seg);
    PartsFromTypedFtyp(seg);
    PartsFromTypedFnr(seg);
    PartsFromTypedOrgnr(seg);
    PartsFromTypedBkod(seg);
    PartsFromTypedAdress(seg);
    PartsFromTypedFnamn(seg);
    PartsFromTypedRar(seg);
    PartsFromTypedTaxar(seg);
    PartsFromTypedOmfattn(seg);
    PartsFromTypedKptyp(seg);
    PartsFromTypedValuta(seg);
    PartsFromTypedKonto(seg);
    PartsFromTypedKtyp(seg);
    PartsFromTypedEnhet(seg);
    PartsFromTypedSru(seg);
    PartsFromTypedDim(seg);
    PartsFromTypedUnderdim(seg);
    PartsFromTypedObjekt(seg);
    PartsFromTypedIb(seg);
    PartsFromTypedUb(seg);
    PartsFromTypedOib(seg);
    PartsFromTypedOub(seg);
    PartsFromTypedRes(seg);
    PartsFromTypedPsaldo(seg);
    PartsFromTypedPbudget(seg);
    PartsFromTypedVer(seg);
  }

  lemma {:induction false} PartsFromTypedFlagga(seg: ItemType -> seq<Record>)
    requires forall t, x :: x in seg(t) ==> HasType(x, t)
    ensures PartsFrom(seg).flagga.Some? ==> PartsFrom(seg).flagga.value.Flagga?
  {
    FirstIn(seg(FLAGGA));
  }

  lemma {:induction false} PartsFromTypedProgram(seg: ItemType -> seq<Record>)
    requires forall t, x :: x in seg(t) ==> HasType(x, t)
    ensures PartsFrom(seg).program.Some? ==> PartsFrom(seg).program.value.Program?
  {
    FirstIn(seg(PROGRAM));
  }

  lemma {:induction false} PartsFromTypedFormat(seg: ItemType -> seq<Record>)
    requires forall t, x :: x in seg(t) ==> HasType(x, t)
    ensures PartsFrom(seg).format.Some? ==> PartsFrom(seg).format.value.Format?
  {
    FirstIn(seg(FORMAT));
  }

  lemma {:induction false} PartsFromTypedGen(seg: ItemType -> seq<Record>)
    requires forall t, x :: x in seg(t) ==> HasType(x, t)
    ensures PartsFrom(seg).gen.Some? ==> PartsFrom(seg).gen.value.Gen?
  {
    FirstIn(seg(GEN));
  }

  lemma {:induction false} PartsFromTypedSietyp(seg: ItemType -> seq<Record>)
    requires forall t, x :: x in seg(t) ==> HasType(x, t)
    ensures PartsFrom(seg).sietyp.Some? ==> PartsFrom(seg).sietyp.value.Sietyp?
  {
    FirstIn(seg(SIETYP));
  }

  lemma {:induction false} PartsFromTypedProsa(seg: ItemType -> seq<Record>)
    requires forall t, x :: x in seg(t) ==> HasType(x, t)
    ensures PartsFrom(seg).prosa.Some? ==> PartsFrom(seg).prosa.value.Prosa?
  {
    FirstIn(seg(PROSA));
  }

  lemma {:induction false} PartsFromTypedFtyp(seg: ItemType -> seq<Record>)
    requires forall t, x :: x in seg(t) ==> HasType(x, t)
    ensures PartsFrom(seg).ftyp.Some? ==> PartsFrom(seg).ftyp.value.Ftyp?
  {
    FirstIn(seg(FTYP));
  }

  lemma {:induction false} PartsFromTypedFnr(seg: ItemType -> seq<Record>)
    requires forall t, x :: x in seg(t) ==> HasType(x, t)
    ensures PartsFrom(seg).fnr.Some? ==> PartsFrom(seg).fnr.value.Fnr?
  {
    FirstIn(seg(FNR));
  }

  lemma {:induction false} PartsFromTypedOrgnr(seg: ItemType -> seq<Record>)
    requires forall t, x :: x in seg(t) ==> HasType(x, t)
    ensures PartsFrom(seg).orgnr.Some? ==> PartsFrom(seg).orgnr.value.OrgNr?
  {
    FirstIn(seg(ORGNR));
  }

  lemma {:induction false} PartsFromTypedBkod(seg: ItemType -> seq<Record>)
    requires forall t, x :: x in seg(t) ==> HasType(x, t)
    ensures PartsFrom(seg).bkod.Some? ==> PartsFrom(seg).bkod.value.Bkod?
  {
    FirstIn(seg(BKOD));
  }

  lemma {:induction false} PartsFromTypedAdress(seg: ItemType -> seq<Record>)
    requires forall t, x :: x in seg(t) ==> HasType(x, t)
    ensures PartsFrom(seg).adress.Some? ==> PartsFrom(seg).adress.value.Adress?
  {
    FirstIn(seg(ADRESS));
  }

  lemma {:induction false} PartsFromTypedFnamn(seg: ItemType -> seq<Record>)
    requires forall t, x :: x in seg(t) ==> HasType(x, t)
    ensures PartsFrom(seg).fnamn.Some? ==> PartsFrom(seg).fnamn.value.Fnamn?
  {
    FirstIn(seg(FNAMN));
  }

  lemma {:induction false} PartsFromTypedRar(seg: ItemType -> seq<Record>)
    requires forall t, x :: x in seg(t) ==> HasType(x, t)
    ensures forall x :: x in PartsFrom(seg).rar.value ==> x.Rar?
  {
  }

  lemma {:induction false} PartsFromTypedTaxar(seg: ItemType -> seq<Record>)
    requires forall t, x :: x in seg(t) ==> HasType(x, t)
    ensures PartsFrom(seg).taxar.Some? ==> PartsFrom(seg).taxar.value.Taxar?
  {
    FirstIn(seg(TAXAR));
  }

  lemma {:induction false} PartsFromTypedOmfattn(seg: ItemType -> seq<Record>)
    requires forall t, x :: x in seg(t) ==> HasType(x, t)
    ensures PartsFrom(seg).omfattn.Some? ==> PartsFrom(seg).omfattn.value.Omfattn?
  {
    FirstIn(seg(OMFATTN));
  }

  lemma {:induction false} PartsFromTypedKptyp(seg: ItemType -> seq<Record>)
    requires forall t, x :: x in seg(t) ==> HasType(x, t)
    ensures PartsFrom(seg).kptyp.Some? ==> PartsFrom(seg).kptyp.value.Kptyp?
  {
    FirstIn(seg(KPTYP));
  }

  lemma {:induction false} PartsFromTypedValuta(seg: ItemType -> seq<Record>)
    requires forall t, x :: x in seg(t) ==> HasType(x, t)
    ensures PartsFrom(seg).valuta.Some? ==> PartsFrom(seg).valuta.value.Valuta?
  {
    FirstIn(seg(VALUTA));
  }

  lemma {:induction false} PartsFromTypedKonto(seg: ItemType -> seq<Record>)
    requires forall t, x :: x in seg(t) ==> HasType(x, t)
    ensures forall x :: x in PartsFrom(seg).konto.value ==> x.Konto?
  {
  }

  lemma {:induction false} PartsFromTypedKtyp(seg: ItemType -> seq<Record>)
    requires forall t, x :: x in seg(t) ==> HasType(x, t)
    ensures forall x :: x in PartsFrom(seg).ktyp.value ==> x.Ktyp?
  {
  }

  lemma {:induction false} PartsFromTypedEnhet(seg: ItemType -> seq<Record>)
    requires forall t, x :: x in seg(t) ==> HasType(x, t)
    ensures forall x :: x in PartsFrom(seg).enhet.value ==> x.Enhet?
  {
  }

  lemma {:induction false} PartsFromTypedSru(seg: ItemType -> seq<Record>)
    requires forall t, x :: x in seg(t) ==> HasType(x, t)
    ensures forall x :: x in PartsFrom(seg).sru.value ==> x.Sru?
  {
  }

  lemma {:induction false} PartsFromTypedDim(seg: ItemType -> seq<Record>)
    requires forall t, x :: x in seg(t) ==> HasType(x, t)
    ensures forall x :: x in PartsFrom(seg).dim.value ==> x.Dim?
  {
  }

  lemma {:induction false} PartsFromTypedUnderdim(seg: ItemType -> seq<Record>)
    requires forall t, x :: x in seg(t) ==> HasType(x, t)
    ensures forall x :: x in PartsFrom(seg).underdim.value ==> x.Underdim?
  {
  }

  lemma {:induction false} PartsFromTypedObjekt(seg: ItemType -> seq<Record>)
    requires forall t, x :: x in seg(t) ==> HasType(x, t)
    ensures forall x :: x in PartsFrom(seg).objekt.value ==> x.Objekt?
  {
  }

  lemma {:induction false} PartsFromTypedIb(seg: ItemType -> seq<Record>)
    requires forall t, x :: x in seg(t) ==> HasType(x, t)
    ensures forall x :: x in PartsFrom(seg).ib.value ==> x.Ib?
  {
  }

  lemma {:induction false} PartsFromTypedUb(seg: ItemType -> seq<Record>)
    requires forall t, x :: x in seg(t) ==> HasType(x, t)
    ensures forall x :: x in PartsFrom(seg).ub.value ==> x.Ub?
  {
  }

  lemma {:induction false} PartsFromTypedOib(seg: ItemType -> seq<Record>)
    requires forall t, x :: x in seg(t) ==> HasType(x, t)
    ensures forall x :: x in PartsFrom(seg).oib.value ==> x.Oib?
  {
  }

  lemma {:induction false} PartsFromTypedOub(seg: ItemType -> seq<Record>)
    requires forall t, x :: x in seg(t) ==> HasType(x, t)
    ensures forall x :: x in PartsFrom(seg).oub.value ==> x.Oub?
  {
  }

  lemma {:induction false} PartsFromTypedRes(seg: ItemType -> seq<Record>)
    requires forall t, x :: x in seg(t) ==> HasType(x, t)
    ensures forall x :: x in PartsFrom(seg).res.value ==> x.Res?
  {
  }

  lemma {:induction false} PartsFromTypedPsaldo(seg: ItemType -> seq<Record>)
    requires forall t, x :: x in seg(t) ==> HasType(x, t)
    ensures forall x :: x in PartsFrom(seg).psaldo.value ==> x.Psaldo?
  {
  }

  lemma {:induction false} PartsFromTypedPbudget(seg: ItemType -> seq<Record>)
    requires forall t, x :: x in seg(t) ==> HasType(x, t)
    ensures forall x :: x in PartsFrom(seg).pbudget.value ==> x.Pbudget?
  {
  }

  lemma {:induction false} PartsFromTypedVer(seg: ItemType -> seq<Record>)
    requires forall t, x :: x in seg(t) ==> HasType(x, t)
    ensures forall x :: x in PartsFrom(seg).ver.value ==> x.Ver?
  {
  }

  /** The parts and fields built from any list are typed: each lookup and each filter keeps its own type. */
  lemma {:induction false} FieldsOfTyped(items: seq<Record>)
    ensures PartsTyped(PartsFrom(SegmentsOf(items)))
    ensures Typed(FieldsOf(items))
  {
    forall t
      ensures forall x :: x in SegmentsOf(items)(t) ==> HasType(x, t)
    {
      FilterTyped(items, t);
    }
    PartsFromTyped(SegmentsOf(items));
    DefaultedTyped(PartsFrom(SegmentsOf(items)));
  }

  /** Each field of `f` holds exactly the segment of the field's type. */
  predicate Mirrors(f: Fields, seg: ItemType -> seq<Record>) {
    SegmentAt(f, FLAGGA) == seg(FLAGGA)
    && SegmentAt(f, PROGRAM) == seg(PROGRAM)
    && SegmentAt(f, FORMAT) == seg(FORMAT)
    && SegmentAt(f, GEN) == seg(GEN)
    && SegmentAt(f, SIETYP) == seg(SIETYP)
    && SegmentAt(f, PROSA) == seg(PROSA)
    && SegmentAt(f, FTYP) == seg(FTYP)
    && SegmentAt(f, FNR) == seg(FNR)
    && SegmentAt(f, ORGNR) == seg(ORGNR)
    && SegmentAt(f, BKOD) == seg(BKOD)
    && SegmentAt(f, ADRESS) == seg(ADRESS)
    && SegmentAt(f, FNAMN) == seg(FNAMN)
    && SegmentAt(f, RAR) == seg(RAR)
    && SegmentAt(f, TAXAR) == seg(TAXAR)
    && SegmentAt(f, OMFATTN) == seg(OMFATTN)
    && SegmentAt(f, KPTYP) == seg(KPTYP)
    && SegmentAt(f, VALUTA) == seg(VALUTA)
    && SegmentAt(f, KONTO) == seg(KONTO)
    && SegmentAt(f, KTYP) == seg(KTYP)
    && SegmentAt(f, ENHET) == seg(ENHET)
    && SegmentAt(f, SRU) == seg(SRU)
    && SegmentAt(f, DIM) == seg(DIM)
    && SegmentAt(f, UNDERDIM) == seg(UNDERDIM)
    && SegmentAt(f, OBJEKT) == seg(OBJEKT)
    && SegmentAt(f, IB) == seg(IB)
    && SegmentAt(f, UB) == seg(UB)
    && SegmentAt(f, OIB) == seg(OIB)
    && SegmentAt(f, OUB) == seg(OUB)
    && SegmentAt(f, RES) == seg(RES)
    && SegmentAt(f, PSALDO) == seg(PSALDO)
    && SegmentAt(f, PBUDGET) == seg(PBUDGET)
    && SegmentAt(f, VER) == seg(VER)
  }

  lemma {:induction false} MirrorsAt(f: Fields, seg: ItemType -> seq<Record>, t: ItemType)
    requires Mirrors(f, seg) && Ordinal(t) < |FieldOrder|
    ensures SegmentAt(f, t) == seg(t)
  {
    match t
    case FLAGGA =>
    case PROGRAM =>
    case FORMAT =>
    case GEN =>
    case SIETYP =>
    case PROSA =>
    case FTYP =>
    case FNR =>
    case ORGNR =>
    case BKOD =>
    case ADRESS =>
    case FNAMN =>
    case RAR =>
    case TAXAR =>
    case OMFATTN =>
    case KPTYP =>
    case VALUTA =>
    case KONTO =>
    case KTYP =>
    case ENHET =>
    case SRU =>
    case DIM =>
    case UNDERDIM =>
    case OBJEKT =>
    case IB =>
    case UB =>
    case OIB =>
    case OUB =>
    case RES =>
    case PSALDO =>
    case PBUDGET =>
    case VER =>
    case TRANS => assert false;
    case RTRANS => assert false;
    case BTRANS => assert false;
  }

  /** A defaulted field holds its segment when the segment has exactly one item. */
  lemma {:induction false} DefaultedMirrors(s: seq<Record>, d: Record)
    requires |s| == 1
    ensures Opt(OrElse(First(s), d)) == s
  {
  }

  /**
   * Fields taken from segments with one FLAGGA item, one FORMAT item and
   * at most one item of each other single-item type hold exactly those
   * segments.
   */
  lemma {:induction false} FieldsFromMirrors(seg: ItemType -> seq<Record>)
    requires |seg(FLAGGA)| == 1
    requires |seg(PROGRAM)| <= 1
    requires |seg(FORMAT)| == 1
    requires |seg(GEN)| <= 1
    requires |seg(SIETYP)| <= 1
    requires |seg(PROSA)| <= 1
    requires |seg(FTYP)| <= 1
    requires |seg(FNR)| <= 1
    requires |seg(ORGNR)| <= 1
    requires |seg(BKOD)| <= 1
    requires |seg(ADRESS)| <= 1
    requires |seg(FNAMN)| <= 1
    requires |seg(TAXAR)| <= 1
    requires |seg(OMFATTN)| <= 1
    requires |seg(KPTYP)| <= 1
    requires |seg(VALUTA)| <= 1
    ensures Mirrors(FieldsFrom(seg), seg)
  {
    FieldsFromMirrorsFlagga(seg);
    FieldsFromMirrorsProgram(seg);
    FieldsFromMirrorsFormat(seg);
    FieldsFromMirrorsGen(seg);
    FieldsFromMirrorsSietyp(seg);
    FieldsFromMirrorsProsa(seg);
    FieldsFromMirrorsFtyp(seg);
    FieldsFromMirrorsFnr(seg);
    FieldsFromMirrorsOrgnr(seg);
    FieldsFromMirrorsBkod(seg);
    FieldsFromMirrorsAdress(seg);
    FieldsFromMirrorsFnamn(seg);
    FieldsFromMirrorsRar(seg);
    FieldsFromMirrorsTaxar(seg);
    FieldsFromMirrorsOmfattn(seg);
    FieldsFromMirrorsKptyp(seg);
    FieldsFromMirrorsValuta(seg);
    FieldsFromMirrorsKonto(seg);
    FieldsFromMirrorsKtyp(seg);
    FieldsFromMirrorsEnhet(seg);
    FieldsFromMirrorsSru(seg);
    FieldsFromMirrorsDim(seg);
    FieldsFromMirrorsUnderdim(seg);
    FieldsFromMirrorsObjekt(seg);
    FieldsFromMirrorsIb(seg);
    FieldsFromMirrorsUb(seg);
    FieldsFromMirrorsOib(seg);
    FieldsFromMirrorsOub(seg);
    FieldsFromMirrorsRes(seg);
    FieldsFromMirrorsPsaldo(seg);
    FieldsFromMirrorsPbudget(seg);
    FieldsFromMirrorsVer(seg);
  }

  lemma {:induction false} FieldsFromMirrorsFlagga(seg: ItemType -> seq<Record>)
    requires |seg(FLAGGA)| == 1
    ensures SegmentAt(FieldsFrom(seg), FLAGGA) == seg(FLAGGA)
  {
    DefaultedMirrors(seg(FLAGGA), UnsetFlagga);
  }

  lemma {:induction false} FieldsFromMirrorsProgram(seg: ItemType -> seq<Record>)
    requires |seg(PROGRAM)| <= 1
    ensures SegmentAt(FieldsFrom(seg), PROGRAM) == seg(PROGRAM)
  {
    FirstMirrors(seg(PROGRAM));
  }

  lemma {:induction false} FieldsFromMirrorsFormat(seg: ItemType -> seq<Record>)
    requires |seg(FORMAT)| == 1
    ensures SegmentAt(FieldsFrom(seg), FORMAT) == seg(FORMAT)
  {
    DefaultedMirrors(seg(FORMAT), Pc8Format);
  }

  lemma {:induction false} FieldsFromMirrorsGen(seg: ItemType -> seq<Record>)
    requires |seg(GEN)| <= 1
    ensures SegmentAt(FieldsFrom(seg), GEN) == seg(GEN)
  {
    FirstMirrors(seg(GEN));
  }

  lemma {:induction false} FieldsFromMirrorsSietyp(seg: ItemType -> seq<Record>)
    requires |seg(SIETYP)| <= 1
    ensures SegmentAt(FieldsFrom(seg), SIETYP) == seg(SIETYP)
  {
    FirstMirrors(seg(SIETYP));
  }

  lemma {:induction false} FieldsFromMirrorsProsa(seg: ItemType -> seq<Record>)
    requires |seg(PROSA)| <= 1
    ensures SegmentAt(FieldsFrom(seg), PROSA) == seg(PROSA)
  {
    FirstMirrors(seg(PROSA));
  }

  lemma {:induction false} FieldsFromMirrorsFtyp(seg: ItemType -> seq<Record>)
    requires |seg(FTYP)| <= 1
    ensures SegmentAt(FieldsFrom(seg), FTYP) == seg(FTYP)
  {
    FirstMirrors(seg(FTYP));
  }

  lemma {:induction false} FieldsFromMirrorsFnr(seg: ItemType -> seq<Record>)
    requires |seg(FNR)| <= 1
    ensures SegmentAt(FieldsFrom(seg), FNR) == seg(FNR)
  {
    FirstMirrors(seg(FNR));
  }

  lemma {:induction false} FieldsFromMirrorsOrgnr(seg: ItemType -> seq<Record>)
    requires |seg(ORGNR)| <= 1
    ensures SegmentAt(FieldsFrom(seg), ORGNR) == seg(ORGNR)
  {
    FirstMirrors(seg(ORGNR));
  }

  lemma {:induction false} FieldsFromMirrorsBkod(seg: ItemType -> seq<Record>)
    requires |seg(BKOD)| <= 1
    ensures SegmentAt(FieldsFrom(seg), BKOD) == seg(BKOD)
  {
    FirstMirrors(seg(BKOD));
  }

  lemma {:induction false} FieldsFromMirrorsAdress(seg: ItemType -> seq<Record>)
    requires |seg(ADRESS)| <= 1
    ensures SegmentAt(FieldsFrom(seg), ADRESS) == seg(ADRESS)
  {
    FirstMirrors(seg(ADRESS));
  }

  lemma {:induction false} FieldsFromMirrorsFnamn(seg: ItemType -> seq<Record>)
    requires |seg(FNAMN)| <= 1
    ensures SegmentAt(FieldsFrom(seg), FNAMN) == seg(FNAMN)
  {
    FirstMirrors(seg(FNAMN));
  }

  lemma {:induction false} FieldsFromMirrorsRar(seg: ItemType -> seq<Record>)
    ensures SegmentAt(FieldsFrom(seg), RAR) == seg(RAR)
  {
  }

  lemma {:induction false} FieldsFromMirrorsTaxar(seg: ItemType -> seq<Record>)
    requires |seg(TAXAR)| <= 1
    ensures SegmentAt(FieldsFrom(seg), TAXAR) == seg(TAXAR)
  {
    FirstMirrors(seg(TAXAR));
  }

  lemma {:induction false} FieldsFromMirrorsOmfattn(seg: ItemType -> seq<Record>)
    requires |seg(OMFATTN)| <= 1
    ensures SegmentAt(FieldsFrom(seg), OMFATTN) == seg(OMFATTN)
  {
    FirstMirrors(seg(OMFATTN));
  }

  lemma {:induction false} FieldsFromMirrorsKptyp(seg: ItemType -> seq<Record>)
    requires |seg(KPTYP)| <= 1
    ensures SegmentAt(FieldsFrom(seg), KPTYP) == seg(KPTYP)
  {
    FirstMirrors(seg(KPTYP));
  }

  lemma {:induction false} FieldsFromMirrorsValuta(seg: ItemType -> seq<Record>)
    requires |seg(VALUTA)| <= 1
    ensures SegmentAt(FieldsFrom(seg), VALUTA) == seg(VALUTA)
  {
    FirstMirrors(seg(VALUTA));
  }

  lemma {:induction false} FieldsFromMirrorsKonto(seg: ItemType -> seq<Record>)
    ensures SegmentAt(FieldsFrom(seg), KONTO) == seg(KONTO)
  {
  }

  lemma {:induction false} FieldsFromMirrorsKtyp(seg: ItemType -> seq<Record>)
    ensures SegmentAt(FieldsFrom(seg), KTYP) == seg(KTYP)
  {
  }

  lemma {:induction false} FieldsFromMirrorsEnhet(seg: ItemType -> seq<Record>)
    ensures SegmentAt(FieldsFrom(seg), ENHET) == seg(ENHET)
  {
  }

  lemma {:induction false} FieldsFromMirrorsSru(seg: ItemType -> seq<Record>)
    ensures SegmentAt(FieldsFrom(seg), SRU) == seg(SRU)
  {
  }

  lemma {:induction false} FieldsFromMirrorsDim(seg: ItemType -> seq<Record>)
    ensures SegmentAt(FieldsFrom(seg), DIM) == seg(DIM)
  {
  }

  lemma {:induction false} FieldsFromMirrorsUnderdim(seg: ItemType -> seq<Record>)
    ensures SegmentAt(FieldsFrom(seg), UNDERDIM) == seg(UNDERDIM)
  {
  }

  lemma {:induction false} FieldsFromMirrorsObjekt(seg: ItemType -> seq<Record>)
    ensures SegmentAt(FieldsFrom(seg), OBJEKT) == seg(OBJEKT)
  {
  }

  lemma {:induction false} FieldsFromMirrorsIb(seg: ItemType -> seq<Record>)
    ensures SegmentAt(FieldsFrom(seg), IB) == seg(IB)
  {
  }

  lemma {:induction false} FieldsFromMirrorsUb(seg: ItemType -> seq<Record>)
    ensures SegmentAt(FieldsFrom(seg), UB) == seg(UB)
  {
  }

  lemma {:induction false} FieldsFromMirrorsOib(seg: ItemType -> seq<Record>)
    ensures SegmentAt(FieldsFrom(seg), OIB) == seg(OIB)
  {
  }

  lemma {:induction false} FieldsFromMirrorsOub(seg: ItemType -> seq<Record>)
    ensures SegmentAt(FieldsFrom(seg), OUB) == seg(OUB)
  {
  }

  lemma {:induction false} FieldsFromMirrorsRes(seg: ItemType -> seq<Record>)
    ensures SegmentAt(FieldsFrom(seg), RES) == seg(RES)
  {
  }

  lemma {:induction false} FieldsFromMirrorsPsaldo(seg: ItemType -> seq<Record>)
    ensures SegmentAt(FieldsFrom(seg), PSALDO) == seg(PSALDO)
  {
  }

  lemma {:induction false} FieldsFromMirrorsPbudget(seg: ItemType -> seq<Record>)
    ensures SegmentAt(FieldsFrom(seg), PBUDGET) == seg(PBUDGET)
  {
  }

  lemma {:induction false} FieldsFromMirrorsVer(seg: ItemType -> seq<Record>)
    ensures SegmentAt(FieldsFrom(seg), VER) == seg(VER)
  {
  }

  /** A type with at most one item has a filter of at most one item. */
  lemma {:induction false} SingleSegment(items: seq<Record>, t: ItemType)
    requires !Several(items, t)
    ensures |Filter(items, t)| <= 1
  {
    SeveralIff(items, t);
  }

  /** A type with exactly one item has a filter of exactly one item. */
  lemma {:induction false} OneSegment(items: seq<Record>, t: ItemType)
    requires !Several(items, t) && exists i :: 0 <= i < |items| && HasType(items[i], t)
    ensures |Filter(items, t)| == 1
  {
    SeveralIff(items, t);
    FilterMembers(items, t);
    var i :| 0 <= i < |items| && HasType(items[i], t);
    assert items[i] in Filter(items, t);
  }

  /**
   * A document built from a list with a FLAGGA and a FORMAT item, and at
   * most one item of each single-item type, holds in each field exactly
   * the list's items of that field's type.
   */
  lemma {:induction false} FieldsOfMirrors(items: seq<Record>)
    requires AtMostOne(items)
    requires exists i :: 0 <= i < |items| && items[i].Flagga?
    requires exists i :: 0 <= i < |items| && items[i].Format?
    ensures Mirrors(FieldsOf(items), SegmentsOf(items))
  {
    var i :| 0 <= i < |items| && items[i].Flagga?;
    var j :| 0 <= j < |items| && items[j].Format?;
    assert HasType(items[i], FLAGGA) && HasType(items[j], FORMAT);
    OneSegment(items, FLAGGA);
    SingleSegment(items, PROGRAM);
    OneSegment(items, FORMAT);
    SingleSegment(items, GEN);
    SingleSegment(items, SIETYP);
    SingleSegment(items, PROSA);
    SingleSegment(items, FTYP);
    SingleSegment(items, FNR);
    SingleSegment(items, ORGNR);
    SingleSegment(items, BKOD);
    SingleSegment(items, ADRESS);
    SingleSegment(items, FNAMN);
    SingleSegment(items, TAXAR);
    SingleSegment(items, OMFATTN);
    SingleSegment(items, KPTYP);
    SingleSegment(items, VALUTA);
    FieldsFromMirrors(SegmentsOf(items));
  }

  /** What the filters of a list give, type by type. */
  function FilterBy(items: seq<Record>, ts: seq<ItemType>): seq<Record> {
    if |ts| == 0 then [] else Filter(items, ts[0]) + FilterBy(items, ts[1..])
  }

  lemma {:induction false} ListingOfMirror(f: Fields, items: seq<Record>, ts: seq<ItemType>)
    requires Mirrors(f, SegmentsOf(items))
    requires forall t :: t in ts ==> Ordinal(t) < |FieldOrder|
    ensures ListingOf(f, ts) == FilterBy(items, ts)
  {
    if |ts| > 0 {
      MirrorsAt(f, SegmentsOf(items), ts[0]);
      assert forall t :: t in ts[1..] ==> t in ts;
      ListingOfMirror(f, items, ts[1..]);
    }
  }

  lemma {:induction false} FilterBySplit(x: Record, rest: seq<Record>, ts: seq<ItemType>)
    ensures multiset(FilterBy([x] + rest, ts)) == multiset(FilterBy([x], ts)) + multiset(FilterBy(rest, ts))
  {
    if |ts| > 0 {
      FilterAppend([x], rest, ts[0]);
      FilterBySplit(x, rest, ts[1..]);
    }
  }

  lemma {:induction false} FilterBySingle(x: Record, ts: seq<ItemType>)
    requires Increasing(ts)
    ensures multiset(FilterBy([x], ts)) == if TypeOf(x) in ts then multiset{x} else multiset{}
  {
    if |ts| > 0 {
      IncreasingTail(ts);
      FilterBySingle(x, ts[1..]);
      HasTypeTypeOf(x, ts[0]);
      assert [x][1..] == [];
      assert Filter([x], ts[0]) == if HasType(x, ts[0]) then [x] else [];
      assert TypeOf(x) in ts <==> TypeOf(x) == ts[0] || TypeOf(x) in ts[1..];
    }
  }

  lemma {:induction false} FilterByEmpty(ts: seq<ItemType>)
    ensures FilterBy([], ts) == []
  {
    if |ts| > 0 {
      FilterByEmpty(ts[1..]);
    }
  }

  lemma {:induction false} FilterByCons(x: Record, rest: seq<Record>)
    requires !x.Tx?
    ensures multiset(FilterBy([x] + rest, FieldOrder)) == multiset{x} + multiset(FilterBy(rest, FieldOrder))
  {
    FilterBySplit(x, rest, FieldOrder);
    FieldOrderIncreasing();
    FilterBySingle(x, FieldOrder);
    FieldTypeOf(x);
  }

  /** Filtering a list without transactions by every field type, in turn, permutes it. */
  lemma {:induction false} FilterByAll(items: seq<Record>)
    requires forall i :: 0 <= i < |items| ==> !items[i].Tx?
    ensures multiset(FilterBy(items, FieldOrder)) == multiset(items)
  {
    if |items| > 0 {
      var x, rest := items[0], items[1..];
      assert items == [x] + rest;
      FilterByCons(x, rest);
      FilterByAll(rest);
      assert multiset(items) == multiset{x} + multiset(rest);
    } else {
      FilterByEmpty(FieldOrder);
    }
  }

  /**
   * For a list with a FLAGGA and a FORMAT item, at most one item of
   * each single-valued type and no top-level transaction, the document
   * built from it lists the same items again, in type order: getItems is
   * a permutation of the list.
   */
  lemma {:induction false} ListingPermutes(items: seq<Record>)
    requires AtMostOne(items)
    requires exists i :: 0 <= i < |items| && items[i].Flagga?
    requires exists i :: 0 <= i < |items| && items[i].Format?
    requires forall i :: 0 <= i < |items| ==> !items[i].Tx?
    ensures ItemsFields(items).Ok?
    ensures multiset(Listing(ItemsFields(items).value)) == multiset(items)
  {
    ItemsFieldsValue(items);
    FieldsOfListing(items);
    FilterByAll(items);
  }

  /** The fields taken from a list hold, in type order, exactly what the filters of the list hold. */
  lemma {:induction false} FieldsOfListing(items: seq<Record>)
    requires AtMostOne(items)
    requires exists i :: 0 <= i < |items| && items[i].Flagga?
    requires exists i :: 0 <= i < |items| && items[i].Format?
    ensures Listing(FieldsOf(items)) == FilterBy(items, FieldOrder)
  {
    forall t | t in FieldOrder
      ensures Ordinal(t) < |FieldOrder|
    {
      var k :| 0 <= k < |FieldOrder| && FieldOrder[k] == t;
      FieldOrderOrdinal(k);
    }
    FieldsOfMirrors(items);
    ListingOfMirror(FieldsOf(items), items, FieldOrder);
  }

  /** getItem finds what a filter holding at most one item holds. */
  lemma {:induction false} GetItemOfSegment(items: seq<Record>, t: ItemType, o: Option<Record>)
    requires Filter(items, t) == Opt(o)
    ensures !Several(items, t) && GetItem(items, t) == Ok(o)
  {
    SeveralIff(items, t);
  }

  /** A single field read back from getItems by getItem. */
  lemma {:induction false} SingleRead(f: Fields, t: ItemType, o: Option<Record>)
    requires Typed(f) && Ordinal(t) < |FieldOrder| && SegmentAt(f, t) == Opt(o)
    ensures !Several(Listing(f), t) && GetItem(Listing(f), t) == Ok(o)
  {
    FilterListing(f, t);
    GetItemOfSegment(Listing(f), t, o);
  }

  /** The public constructor over a list whose lookups give back the fields of `f`. */
  lemma {:induction false} ItemsFieldsReads(f: Fields, items: seq<Record>)
    requires f.flagga.Some? && f.format.Some?
    requires !Several(items, FLAGGA) && GetItem(items, FLAGGA) == Ok(f.flagga)
    requires !Several(items, PROGRAM) && GetItem(items, PROGRAM) == Ok(f.program)
    requires !Several(items, FORMAT) && GetItem(items, FORMAT) == Ok(f.format)
    requires !Several(items, GEN) && GetItem(items, GEN) == Ok(f.gen)
    requires !Several(items, SIETYP) && GetItem(items, SIETYP) == Ok(f.sietyp)
    requires !Several(items, PROSA) && GetItem(items, PROSA) == Ok(f.prosa)
    requires !Several(items, FTYP) && GetItem(items, FTYP) == Ok(f.ftyp)
    requires !Several(items, FNR) && GetItem(items, FNR) == Ok(f.fnr)
    requires !Several(items, ORGNR) && GetItem(items, ORGNR) == Ok(f.orgnr)
    requires !Several(items, BKOD) && GetItem(items, BKOD) == Ok(f.bkod)
    requires !Several(items, ADRESS) && GetItem(items, ADRESS) == Ok(f.adress)
    requires !Several(items, FNAMN) && GetItem(items, FNAMN) == Ok(f.fnamn)
    requires !Several(items, TAXAR) && GetItem(items, TAXAR) == Ok(f.taxar)
    requires !Several(items, OMFATTN) && GetItem(items, OMFATTN) == Ok(f.omfattn)
    requires !Several(items, KPTYP) && GetItem(items, KPTYP) == Ok(f.kptyp)
    requires !Several(items, VALUTA) && GetItem(items, VALUTA) == Ok(f.valuta)
    requires Filter(items, RAR) == f.rar
    requires Filter(items, KONTO) == f.konto
    requires Filter(items, KTYP) == f.ktyp
    requires Filter(items, ENHET) == f.enhet
    requires Filter(items, SRU) == f.sru
    requires Filter(items, DIM) == f.dim
    requires Filter(items, UNDERDIM) == f.underdim
    requires Filter(items, OBJEKT) == f.objekt
    requires Filter(items, IB) == f.ib
    requires Filter(items, UB) == f.ub
    requires Filter(items, OIB) == f.oib
    requires Filter(items, OUB) == f.oub
    requires Filter(items, RES) == f.res
    requires Filter(items, PSALDO) == f.psaldo
    requires Filter(items, PBUDGET) == f.pbudget
    requires Filter(items, VER) == f.ver
    ensures ItemsFields(items) == Ok(f)
  {
  }

  /**
   * Rebuilding a document from its own getItems gives the same fields
   * back, provided FLAGGA and FORMAT are set (an absent one would be
   * replaced by its default).
   */
  lemma {:induction false} ItemsFieldsListing(f: Fields)
    requires Typed(f) && f.flagga.Some? && f.format.Some?
    ensures ItemsFields(Listing(f)) == Ok(f)
  {
    ListingReadsFlagga(f);
    ListingReadsProgram(f);
    ListingReadsFormat(f);
    ListingReadsGen(f);
    ListingReadsSietyp(f);
    ListingReadsProsa(f);
    ListingReadsFtyp(f);
    ListingReadsFnr(f);
    ListingReadsOrgnr(f);
    ListingReadsBkod(f);
    ListingReadsAdress(f);
    ListingReadsFnamn(f);
    ListingReadsRar(f);
    ListingReadsTaxar(f);
    ListingReadsOmfattn(f);
    ListingReadsKptyp(f);
    ListingReadsValuta(f);
    ListingReadsKonto(f);
    ListingReadsKtyp(f);
    ListingReadsEnhet(f);
    ListingReadsSru(f);
    ListingReadsDim(f);
    ListingReadsUnderdim(f);
    ListingReadsObjekt(f);
    ListingReadsIb(f);
    ListingReadsUb(f);
    ListingReadsOib(f);
    ListingReadsOub(f);
    ListingReadsRes(f);
    ListingReadsPsaldo(f);
    ListingReadsPbudget(f);
    ListingReadsVer(f);
    ItemsFieldsReads(f, Listing(f));
  }

  lemma {:induction false} ListingReadsFlagga(f: Fields)
    requires Typed(f)
    ensures !Several(Listing(f), FLAGGA) && GetItem(Listing(f), FLAGGA) == Ok(f.flagga)
  {
    SingleRead(f, FLAGGA, f.flagga);
  }

  lemma {:induction false} ListingReadsProgram(f: Fields)
    requires Typed(f)
    ensures !Several(Listing(f), PROGRAM) && GetItem(Listing(f), PROGRAM) == Ok(f.program)
  {
    SingleRead(f, PROGRAM, f.program);
  }

  lemma {:induction false} ListingReadsFormat(f: Fields)
    requires Typed(f)
    ensures !Several(Listing(f), FORMAT) && GetItem(Listing(f), FORMAT) == Ok(f.format)
  {
    SingleRead(f, FORMAT, f.format);
  }

  lemma {:induction false} ListingReadsGen(f: Fields)
    requires Typed(f)
    ensures !Several(Listing(f), GEN) && GetItem(Listing(f), GEN) == Ok(f.gen)
  {
    SingleRead(f, GEN, f.gen);
  }

  lemma {:induction false} ListingReadsSietyp(f: Fields)
    requires Typed(f)
    ensures !Several(Listing(f), SIETYP) && GetItem(Listing(f), SIETYP) == Ok(f.sietyp)
  {
    SingleRead(f, SIETYP, f.sietyp);
  }

  lemma {:induction false} ListingReadsProsa(f: Fields)
    requires Typed(f)
    ensures !Several(Listing(f), PROSA) && GetItem(Listing(f), PROSA) == Ok(f.prosa)
  {
    SingleRead(f, PROSA, f.prosa);
  }

  lemma {:induction false} ListingReadsFtyp(f: Fields)
    requires Typed(f)
    ensures !Several(Listing(f), FTYP) && GetItem(Listing(f), FTYP) == Ok(f.ftyp)
  {
    SingleRead(f, FTYP, f.ftyp);
  }

  lemma {:induction false} ListingReadsFnr(f: Fields)
    requires Typed(f)
    ensures !Several(Listing(f), FNR) && GetItem(Listing(f), FNR) == Ok(f.fnr)
  {
    SingleRead(f, FNR, f.fnr);
  }

  lemma {:induction false} ListingReadsOrgnr(f: Fields)
    requires Typed(f)
    ensures !Several(Listing(f), ORGNR) && GetItem(Listing(f), ORGNR) == Ok(f.orgnr)
  {
    SingleRead(f, ORGNR, f.orgnr);
  }

  lemma {:induction false} ListingReadsBkod(f: Fields)
    requires Typed(f)
    ensures !Several(Listing(f), BKOD) && GetItem(Listing(f), BKOD) == Ok(f.bkod)
  {
    SingleRead(f, BKOD, f.bkod);
  }

  lemma {:induction false} ListingReadsAdress(f: Fields)
    requires Typed(f)
    ensures !Several(Listing(f), ADRESS) && GetItem(Listing(f), ADRESS) == Ok(f.adress)
  {
    SingleRead(f, ADRESS, f.adress);
  }

  lemma {:induction false} ListingReadsFnamn(f: Fields)
    requires Typed(f)
    ensures !Several(Listing(f), FNAMN) && GetItem(Listing(f), FNAMN) == Ok(f.fnamn)
  {
    SingleRead(f, FNAMN, f.fnamn);
  }

  lemma {:induction false} ListingReadsRar(f: Fields)
    requires Typed(f)
    ensures Filter(Listing(f), RAR) == f.rar
  {
    FilterListing(f, RAR);
  }

  lemma {:induction false} ListingReadsTaxar(f: Fields)
    requires Typed(f)
    ensures !Several(Listing(f), TAXAR) && GetItem(Listing(f), TAXAR) == Ok(f.taxar)
  {
    SingleRead(f, TAXAR, f.taxar);
  }

  lemma {:induction false} ListingReadsOmfattn(f: Fields)
    requires Typed(f)
    ensures !Several(Listing(f), OMFATTN) && GetItem(Listing(f), OMFATTN) == Ok(f.omfattn)
  {
    SingleRead(f, OMFATTN, f.omfattn);
  }

  lemma {:induction false} ListingReadsKptyp(f: Fields)
    requires Typed(f)
    ensures !Several(Listing(f), KPTYP) && GetItem(Listing(f), KPTYP) == Ok(f.kptyp)
  {
    SingleRead(f, KPTYP, f.kptyp);
  }

  lemma {:induction false} ListingReadsValuta(f: Fields)
    requires Typed(f)
    ensures !Several(Listing(f), VALUTA) && GetItem(Listing(f), VALUTA) == Ok(f.valuta)
  {
    SingleRead(f, VALUTA, f.valuta);
  }

  lemma {:induction false} ListingReadsKonto(f: Fields)
    requires Typed(f)
    ensures Filter(Listing(f), KONTO) == f.konto
  {
    FilterListing(f, KONTO);
  }

  lemma {:induction false} ListingReadsKtyp(f: Fields)
    requires Typed(f)
    ensures Filter(Listing(f), KTYP) == f.ktyp
  {
    FilterListing(f, KTYP);
  }

  lemma {:induction false} ListingReadsEnhet(f: Fields)
    requires Typed(f)
    ensures Filter(Listing(f), ENHET) == f.enhet
  {
    FilterListing(f, ENHET);
  }

  lemma {:induction false} ListingReadsSru(f: Fields)
    requires Typed(f)
    ensures Filter(Listing(f), SRU) == f.sru
  {
    FilterListing(f, SRU);
  }

  lemma {:induction false} ListingReadsDim(f: Fields)
    requires Typed(f)
    ensures Filter(Listing(f), DIM) == f.dim
  {
    FilterListing(f, DIM);
  }

  lemma {:induction false} ListingReadsUnderdim(f: Fields)
    requires Typed(f)
    ensures Filter(Listing(f), UNDERDIM) == f.underdim
  {
    FilterListing(f, UNDERDIM);
  }

  lemma {:induction false} ListingReadsObjekt(f: Fields)
    requires Typed(f)
    ensures Filter(Listing(f), OBJEKT) == f.objekt
  {
    FilterListing(f, OBJEKT);
  }

  lemma {:induction false} ListingReadsIb(f: Fields)
    requires Typed(f)
    ensures Filter(Listing(f), IB) == f.ib
  {
    FilterListing(f, IB);
  }

  lemma {:induction false} ListingReadsUb(f: Fields)
    requires Typed(f)
    ensures Filter(Listing(f), UB) == f.ub
  {
    FilterListing(f, UB);
  }

  lemma {:induction false} ListingReadsOib(f: Fields)
    requires Typed(f)
    ensures Filter(Listing(f), OIB) == f.oib
  {
    FilterListing(f, OIB);
  }

  lemma {:induction false} ListingReadsOub(f: Fields)
    requires Typed(f)
    ensures Filter(Listing(f), OUB) == f.oub
  {
    FilterListing(f, OUB);
  }

  lemma {:induction false} ListingReadsRes(f: Fields)
    requires Typed(f)
    ensures Filter(Listing(f), RES) == f.res
  {
    FilterListing(f, RES);
  }

  lemma {:induction false} ListingReadsPsaldo(f: Fields)
    requires Typed(f)
    ensures Filter(Listing(f), PSALDO) == f.psaldo
  {
    FilterListing(f, PSALDO);
  }

  lemma {:induction false} ListingReadsPbudget(f: Fields)
    requires Typed(f)
    ensures Filter(Listing(f), PBUDGET) == f.pbudget
  {
    FilterListing(f, PBUDGET);
  }

  lemma {:induction false} ListingReadsVer(f: Fields)
    requires Typed(f)
    ensures Filter(Listing(f), VER) == f.ver
  {
    FilterListing(f, VER);
  }

  /*
   * One step of getItems per field: appending the field at its position
   * in the type order keeps the rest of the listing to come.
   */

  lemma {:induction false} StepFlagga(f: Fields, acc: seq<Record>)
    ensures acc + ListingOf(f, FieldOrder[0..]) == (acc + Opt(f.flagga)) + ListingOf(f, FieldOrder[1..])
  {
    assert FieldOrder[0] == FLAGGA;
    assert SegmentAt(f, FLAGGA) == Opt(f.flagga);
    ListingStep(f, 0, FLAGGA, acc);
  }

  lemma {:induction false} StepProgram(f: Fields, acc: seq<Record>)
    ensures acc + ListingOf(f, FieldOrder[1..]) == (acc + Opt(f.program)) + ListingOf(f, FieldOrder[2..])
  {
    assert FieldOrder[1] == PROGRAM;
    assert SegmentAt(f, PROGRAM) == Opt(f.program);
    ListingStep(f, 1, PROGRAM, acc);
  }

  lemma {:induction false} StepFormat(f: Fields, acc: seq<Record>)
    ensures acc + ListingOf(f, FieldOrder[2..]) == (acc + Opt(f.format)) + ListingOf(f, FieldOrder[3..])
  {
    assert FieldOrder[2] == FORMAT;
    assert SegmentAt(f, FORMAT) == Opt(f.format);
    ListingStep(f, 2, FORMAT, acc);
  }

  lemma {:induction false} StepGen(f: Fields, acc: seq<Record>)
    ensures acc + ListingOf(f, FieldOrder[3..]) == (acc + Opt(f.gen)) + ListingOf(f, FieldOrder[4..])
  {
    assert FieldOrder[3] == GEN;
    assert SegmentAt(f, GEN) == Opt(f.gen);
    ListingStep(f, 3, GEN, acc);
  }

  lemma {:induction false} StepSietyp(f: Fields, acc: seq<Record>)
    ensures acc + ListingOf(f, FieldOrder[4..]) == (acc + Opt(f.sietyp)) + ListingOf(f, FieldOrder[5..])
  {
    assert FieldOrder[4] == SIETYP;
    assert SegmentAt(f, SIETYP) == Opt(f.sietyp);
    ListingStep(f, 4, SIETYP, acc);
  }

  lemma {:induction false} StepProsa(f: Fields, acc: seq<Record>)
    ensures acc + ListingOf(f, FieldOrder[5..]) == (acc + Opt(f.prosa)) + ListingOf(f, FieldOrder[6..])
  {
    assert FieldOrder[5] == PROSA;
    assert SegmentAt(f, PROSA) == Opt(f.prosa);
    ListingStep(f, 5, PROSA, acc);
  }

  lemma {:induction false} StepFtyp(f: Fields, acc: seq<Record>)
    ensures acc + ListingOf(f, FieldOrder[6..]) == (acc + Opt(f.ftyp)) + ListingOf(f, FieldOrder[7..])
  {
    assert FieldOrder[6] == FTYP;
    assert SegmentAt(f, FTYP) == Opt(f.ftyp);
    ListingStep(f, 6, FTYP, acc);
  }

  lemma {:induction false} StepFnr(f: Fields, acc: seq<Record>)
    ensures acc + ListingOf(f, FieldOrder[7..]) == (acc + Opt(f.fnr)) + ListingOf(f, FieldOrder[8..])
  {
    assert FieldOrder[7] == FNR;
    assert SegmentAt(f, FNR) == Opt(f.fnr);
    ListingStep(f, 7, FNR, acc);
  }

  lemma {:induction false} StepOrgnr(f: Fields, acc: seq<Record>)
    ensures acc + ListingOf(f, FieldOrder[8..]) == (acc + Opt(f.orgnr)) + ListingOf(f, FieldOrder[9..])
  {
    assert FieldOrder[8] == ORGNR;
    assert SegmentAt(f, ORGNR) == Opt(f.orgnr);
    ListingStep(f, 8, ORGNR, acc);
  }

  lemma {:induction false} StepBkod(f: Fields, acc: seq<Record>)
    ensures acc + ListingOf(f, FieldOrder[9..]) == (acc + Opt(f.bkod)) + ListingOf(f, FieldOrder[10..])
  {
    assert FieldOrder[9] == BKOD;
    assert SegmentAt(f, BKOD) == Opt(f.bkod);
    ListingStep(f, 9, BKOD, acc);
  }

  lemma {:induction false} StepAdress(f: Fields, acc: seq<Record>)
    ensures acc + ListingOf(f, FieldOrder[10..]) == (acc + Opt(f.adress)) + ListingOf(f, FieldOrder[11..])
  {
    assert FieldOrder[10] == ADRESS;
    assert SegmentAt(f, ADRESS) == Opt(f.adress);
    ListingStep(f, 10, ADRESS, acc);
  }

  lemma {:induction false} StepFnamn(f: Fields, acc: seq<Record>)
    ensures acc + ListingOf(f, FieldOrder[11..]) == (acc + Opt(f.fnamn)) + ListingOf(f, FieldOrder[12..])
  {
    assert FieldOrder[11] == FNAMN;
    assert SegmentAt(f, FNAMN) == Opt(f.fnamn);
    ListingStep(f, 11, FNAMN, acc);
  }

  lemma {:induction false} StepRar(f: Fields, acc: seq<Record>)
    ensures acc + ListingOf(f, FieldOrder[12..]) == (acc + f.rar) + ListingOf(f, FieldOrder[13..])
  {
    assert FieldOrder[12] == RAR;
    assert SegmentAt(f, RAR) == f.rar;
    ListingStep(f, 12, RAR, acc);
  }

  lemma {:induction false} StepTaxar(f: Fields, acc: seq<Record>)
    ensures acc + ListingOf(f, FieldOrder[13..]) == (acc + Opt(f.taxar)) + ListingOf(f, FieldOrder[14..])
  {
    assert FieldOrder[13] == TAXAR;
    assert SegmentAt(f, TAXAR) == Opt(f.taxar);
    ListingStep(f, 13, TAXAR, acc);
  }

  lemma {:induction false} StepOmfattn(f: Fields, acc: seq<Record>)
    ensures acc + ListingOf(f, FieldOrder[14..]) == (acc + Opt(f.omfattn)) + ListingOf(f, FieldOrder[15..])
  {
    assert FieldOrder[14] == OMFATTN;
    assert SegmentAt(f, OMFATTN) == Opt(f.omfattn);
    ListingStep(f, 14, OMFATTN, acc);
  }

  lemma {:induction false} StepKptyp(f: Fields, acc: seq<Record>)
    ensures acc + ListingOf(f, FieldOrder[15..]) == (acc + Opt(f.kptyp)) + ListingOf(f, FieldOrder[16..])
  {
    assert FieldOrder[15] == KPTYP;
    assert SegmentAt(f, KPTYP) == Opt(f.kptyp);
    ListingStep(f, 15, KPTYP, acc);
  }

  lemma {:induction false} StepValuta(f: Fields, acc: seq<Record>)
    ensures acc + ListingOf(f, FieldOrder[16..]) == (acc + Opt(f.valuta)) + ListingOf(f, FieldOrder[17..])
  {
    assert FieldOrder[16] == VALUTA;
    assert SegmentAt(f, VALUTA) == Opt(f.valuta);
    ListingStep(f, 16, VALUTA, acc);
  }

  lemma {:induction false} StepKonto(f: Fields, acc: seq<Record>)
    ensures acc + ListingOf(f, FieldOrder[17..]) == (acc + f.konto) + ListingOf(f, FieldOrder[18..])
  {
    assert FieldOrder[17] == KONTO;
    assert SegmentAt(f, KONTO) == f.konto;
    ListingStep(f, 17, KONTO, acc);
  }

  lemma {:induction false} StepKtyp(f: Fields, acc: seq<Record>)
    ensures acc + ListingOf(f, FieldOrder[18..]) == (acc + f.ktyp) + ListingOf(f, FieldOrder[19..])
  {
    assert FieldOrder[18] == KTYP;
    assert SegmentAt(f, KTYP) == f.ktyp;
    ListingStep(f, 18, KTYP, acc);
  }

  lemma {:induction false} StepEnhet(f: Fields, acc: seq<Record>)
    ensures acc + ListingOf(f, FieldOrder[19..]) == (acc + f.enhet) + ListingOf(f, FieldOrder[20..])
  {
    assert FieldOrder[19] == ENHET;
    assert SegmentAt(f, ENHET) == f.enhet;
    ListingStep(f, 19, ENHET, acc);
  }

  lemma {:induction false} StepSru(f: Fields, acc: seq<Record>)
    ensures acc + ListingOf(f, FieldOrder[20..]) == (acc + f.sru) + ListingOf(f, FieldOrder[21..])
  {
    assert FieldOrder[20] == SRU;
    assert SegmentAt(f, SRU) == f.sru;
    ListingStep(f, 20, SRU, acc);
  }

  lemma {:induction false} StepDim(f: Fields, acc: seq<Record>)
    ensures acc + ListingOf(f, FieldOrder[21..]) == (acc + f.dim) + ListingOf(f, FieldOrder[22..])
  {
    assert FieldOrder[21] == DIM;
    assert SegmentAt(f, DIM) == f.dim;
    ListingStep(f, 21, DIM, acc);
  }

  lemma {:induction false} StepUnderdim(f: Fields, acc: seq<Record>)
    ensures acc + ListingOf(f, FieldOrder[22..]) == (acc + f.underdim) + ListingOf(f, FieldOrder[23..])
  {
    assert FieldOrder[22] == UNDERDIM;
    assert SegmentAt(f, UNDERDIM) == f.underdim;
    ListingStep(f, 22, UNDERDIM, acc);
  }

  lemma {:induction false} StepObjekt(f: Fields, acc: seq<Record>)
    ensures acc + ListingOf(f, FieldOrder[23..]) == (acc + f.objekt) + ListingOf(f, FieldOrder[24..])
  {
    assert FieldOrder[23] == OBJEKT;
    assert SegmentAt(f, OBJEKT) == f.objekt;
    ListingStep(f, 23, OBJEKT, acc);
  }

  lemma {:induction false} StepIb(f: Fields, acc: seq<Record>)
    ensures acc + ListingOf(f, FieldOrder[24..]) == (acc + f.ib) + ListingOf(f, FieldOrder[25..])
  {
    assert FieldOrder[24] == IB;
    assert SegmentAt(f, IB) == f.ib;
    ListingStep(f, 24, IB, acc);
  }

  lemma {:induction false} StepUb(f: Fields, acc: seq<Record>)
    ensures acc + ListingOf(f, FieldOrder[25..]) == (acc + f.ub) + ListingOf(f, FieldOrder[26..])
  {
    assert FieldOrder[25] == UB;
    assert SegmentAt(f, UB) == f.ub;
    ListingStep(f, 25, UB, acc);
  }

  lemma {:induction false} StepOib(f: Fields, acc: seq<Record>)
    ensures acc + ListingOf(f, FieldOrder[26..]) == (acc + f.oib) + ListingOf(f, FieldOrder[27..])
  {
    assert FieldOrder[26] == OIB;
    assert SegmentAt(f, OIB) == f.oib;
    ListingStep(f, 26, OIB, acc);
  }

  lemma {:induction false} StepOub(f: Fields, acc: seq<Record>)
    ensures acc + ListingOf(f, FieldOrder[27..]) == (acc + f.oub) + ListingOf(f, FieldOrder[28..])
  {
    assert FieldOrder[27] == OUB;
    assert SegmentAt(f, OUB) == f.oub;
    ListingStep(f, 27, OUB, acc);
  }

  lemma {:induction false} StepRes(f: Fields, acc: seq<Record>)
    ensures acc + ListingOf(f, FieldOrder[28..]) == (acc + f.res) + ListingOf(f, FieldOrder[29..])
  {
    assert FieldOrder[28] == RES;
    assert SegmentAt(f, RES) == f.res;
    ListingStep(f, 28, RES, acc);
  }

  lemma {:induction false} StepPsaldo(f: Fields, acc: seq<Record>)
    ensures acc + ListingOf(f, FieldOrder[29..]) == (acc + f.psaldo) + ListingOf(f, FieldOrder[30..])
  {
    assert FieldOrder[29] == PSALDO;
    assert SegmentAt(f, PSALDO) == f.psaldo;
    ListingStep(f, 29, PSALDO, acc);
  }

  lemma {:induction false} StepPbudget(f: Fields, acc: seq<Record>)
    ensures acc + ListingOf(f, FieldOrder[30..]) == (acc + f.pbudget) + ListingOf(f, FieldOrder[31..])
  {
    assert FieldOrder[30] == PBUDGET;
    assert SegmentAt(f, PBUDGET) == f.pbudget;
    ListingStep(f, 30, PBUDGET, acc);
  }

  lemma {:induction false} StepVer(f: Fields, acc: seq<Record>)
    ensures acc + ListingOf(f, FieldOrder[31..]) == (acc + f.ver) + ListingOf(f, FieldOrder[32..])
  {
    assert FieldOrder[31] == VER;
    assert SegmentAt(f, VER) == f.ver;
    ListingStep(f, 31, VER, acc);
  }

  lemma {:induction false} Steps0(f: Fields, acc: seq<Record>)
    ensures acc + ListingOf(f, FieldOrder[0..]) == (acc + Opt(f.flagga) + Opt(f.program) + Opt(f.format) + Opt(f.gen) + Opt(f.sietyp) + Opt(f.prosa) + Opt(f.ftyp) + Opt(f.fnr)) + ListingOf(f, FieldOrder[8..])
  {
    StepFlagga(f, acc);
    StepProgram(f, acc + Opt(f.flagga));
    StepFormat(f, acc + Opt(f.flagga) + Opt(f.program));
    StepGen(f, acc + Opt(f.flagga) + Opt(f.program) + Opt(f.format));
    StepSietyp(f, acc + Opt(f.flagga) + Opt(f.program) + Opt(f.format) + Opt(f.gen));
    StepProsa(f, acc + Opt(f.flagga) + Opt(f.program) + Opt(f.format) + Opt(f.gen) + Opt(f.sietyp));
    StepFtyp(f, acc + Opt(f.flagga) + Opt(f.program) + Opt(f.format) + Opt(f.gen) + Opt(f.sietyp) + Opt(f.prosa));
    StepFnr(f, acc + Opt(f.flagga) + Opt(f.program) + Opt(f.format) + Opt(f.gen) + Opt(f.sietyp) + Opt(f.prosa) + Opt(f.ftyp));
  }

  lemma {:induction false} Steps1(f: Fields, acc: seq<Record>)
    ensures acc + ListingOf(f, FieldOrder[8..]) == (acc + Opt(f.orgnr) + Opt(f.bkod) + Opt(f.adress) + Opt(f.fnamn) + f.rar + Opt(f.taxar) + Opt(f.omfattn) + Opt(f.kptyp)) + ListingOf(f, FieldOrder[16..])
  {
    StepOrgnr(f, acc);
    StepBkod(f, acc + Opt(f.orgnr));
    StepAdress(f, acc + Opt(f.orgnr) + Opt(f.bkod));
    StepFnamn(f, acc + Opt(f.orgnr) + Opt(f.bkod) + Opt(f.adress));
    StepRar(f, acc + Opt(f.orgnr) + Opt(f.bkod) + Opt(f.adress) + Opt(f.fnamn));
    StepTaxar(f, acc + Opt(f.orgnr) + Opt(f.bkod) + Opt(f.adress) + Opt(f.fnamn) + f.rar);
    StepOmfattn(f, acc + Opt(f.orgnr) + Opt(f.bkod) + Opt(f.adress) + Opt(f.fnamn) + f.rar + Opt(f.taxar));
    StepKptyp(f, acc + Opt(f.orgnr) + Opt(f.bkod) + Opt(f.adress) + Opt(f.fnamn) + f.rar + Opt(f.taxar) + Opt(f.omfattn));
  }

  lemma {:induction false} Steps2(f: Fields, acc: seq<Record>)
    ensures acc + ListingOf(f, FieldOrder[16..]) == (acc + Opt(f.valuta) + f.konto + f.ktyp + f.enhet + f.sru + f.dim + f.underdim + f.objekt) + ListingOf(f, FieldOrder[24..])
  {
    StepValuta(f, acc);
    StepKonto(f, acc + Opt(f.valuta));
    StepKtyp(f, acc + Opt(f.valuta) + f.konto);
    StepEnhet(f, acc + Opt(f.valuta) + f.konto + f.ktyp);
    StepSru(f, acc + Opt(f.valuta) + f.konto + f.ktyp + f.enhet);
    StepDim(f, acc + Opt(f.valuta) + f.konto + f.ktyp + f.enhet + f.sru);
    StepUnderdim(f, acc + Opt(f.valuta) + f.konto + f.ktyp + f.enhet + f.sru + f.dim);
    StepObjekt(f, acc + Opt(f.valuta) + f.konto + f.ktyp + f.enhet + f.sru + f.dim + f.underdim);
  }

  lemma {:induction false} Steps3(f: Fields, acc: seq<Record>)
    ensures acc + ListingOf(f, FieldOrder[24..]) == (acc + f.ib + f.ub + f.oib + f.oub + f.res + f.psaldo + f.pbudget + f.ver) + ListingOf(f, FieldOrder[32..])
  {
    StepIb(f, acc);
    StepUb(f, acc + f.ib);
    StepOib(f, acc + f.ib + f.ub);
    StepOub(f, acc + f.ib + f.ub + f.oib);
    StepRes(f, acc + f.ib + f.ub + f.oib + f.oub);
    StepPsaldo(f, acc + f.ib + f.ub + f.oib + f.oub + f.res);
    StepPbudget(f, acc + f.ib + f.ub + f.oib + f.oub + f.res + f.psaldo);
    StepVer(f, acc + f.ib + f.ub + f.oib + f.oub + f.res + f.psaldo + f.pbudget);
  }

  /** getItems as the source writes it: the fields appended one after another, in the type order. */
  lemma {:induction false} ListingAppends(f: Fields)
    ensures Listing(f) ==
      [] + Opt(f.flagga) + Opt(f.program) + Opt(f.format) + Opt(f.gen)
      + Opt(f.sietyp) + Opt(f.prosa) + Opt(f.ftyp) + Opt(f.fnr)
      + Opt(f.orgnr) + Opt(f.bkod) + Opt(f.adress) + Opt(f.fnamn)
      + f.rar + Opt(f.taxar) + Opt(f.omfattn) + Opt(f.kptyp)
      + Opt(f.valuta) + f.konto + f.ktyp + f.enhet
      + f.sru + f.dim + f.underdim + f.objekt
      + f.ib + f.ub + f.oib + f.oub
      + f.res + f.psaldo + f.pbudget + f.ver
  {
    assert FieldOrder[0..] == FieldOrder;
    Steps0(f, []);
    var upTo8 := [] + Opt(f.flagga) + Opt(f.program) + Opt(f.format) + Opt(f.gen)
      + Opt(f.sietyp) + Opt(f.prosa) + Opt(f.ftyp) + Opt(f.fnr);
    assert Listing(f) == upTo8 + ListingOf(f, FieldOrder[8..]);
    Steps1(f, upTo8);
    var upTo16 := upTo8 + Opt(f.orgnr) + Opt(f.bkod) + Opt(f.adress) + Opt(f.fnamn)
      + f.rar + Opt(f.taxar) + Opt(f.omfattn) + Opt(f.kptyp);
    assert Listing(f) == upTo16 + ListingOf(f, FieldOrder[16..]);
    Steps2(f, upTo16);
    var upTo24 := upTo16 + Opt(f.valuta) + f.konto + f.ktyp + f.enhet
      + f.sru + f.dim + f.underdim + f.objekt;
    assert Listing(f) == upTo24 + ListingOf(f, FieldOrder[24..]);
    Steps3(f, upTo24);
    var upTo32 := upTo24 + f.ib + f.ub + f.oib + f.oub
      + f.res + f.psaldo + f.pbudget + f.ver;
    assert Listing(f) == upTo32 + ListingOf(f, FieldOrder[32..]);
    assert FieldOrder[|FieldOrder|..] == [];
  }

  /**
   * SIE4Document: a mutable holder with one field per item type.  A
   * null list field is not modelled: every list field holds a list.
   */
  class Sie4Document {
    var flagga: Option<Record>
    var program: Option<Record>
    var format: Option<Record>
    var gen: Option<Record>
    var sietyp: Option<Record>
    var prosa: Option<Record>
    var ftyp: Option<Record>
    var fnr: Option<Record>
    var orgnr: Option<Record>
    var bkod: Option<Record>
    var adress: Option<Record>
    var fnamn: Option<Record>
    var rar: seq<Record>
    var taxar: Option<Record>
    var omfattn: Option<Record>
    var kptyp: Option<Record>
    var valuta: Option<Record>
    var konto: seq<Record>
    var ktyp: seq<Record>
    var enhet: seq<Record>
    var sru: seq<Record>
    var dim: seq<Record>
    var underdim: seq<Record>
    var objekt: seq<Record>
    var ib: seq<Record>
    var ub: seq<Record>
    var oib: seq<Record>
    var oub: seq<Record>
    var res: seq<Record>
    var psaldo: seq<Record>
    var pbudget: seq<Record>
    var ver: seq<Record>

    /** The fields of this document as one value. */
    function State(): Fields
      reads this
    {
      Fields(flagga, program, format, gen, sietyp, prosa, ftyp, fnr, orgnr, bkod, adress, fnamn, rar, taxar, omfattn, kptyp, valuta, konto, ktyp, enhet, sru, dim, underdim, objekt, ib, ub, oib, oub, res, psaldo, pbudget, ver)
    }

    /** Every field holds records of its own type, as the field types of the source guarantee. */
    predicate Valid()
      reads this
    {
      Typed(State())
    }

    /** The private constructor: a null FLAGGA, FORMAT or list gets its default. */
    constructor FromParts(p: Parts)
      requires PartsTyped(p)
      ensures State() == Defaulted(p) && Valid()
    {
      flagga := OrElse(p.flagga, UnsetFlagga);
      program := p.program;
      format := OrElse(p.format, Pc8Format);
      gen := p.gen;
      sietyp := p.sietyp;
      prosa := p.prosa;
      ftyp := p.ftyp;
      fnr := p.fnr;
      orgnr := p.orgnr;
      bkod := p.bkod;
      adress := p.adress;
      fnamn := p.fnamn;
      rar := OrEmpty(p.rar);
      taxar := p.taxar;
      omfattn := p.omfattn;
      kptyp := p.kptyp;
      valuta := p.valuta;
      konto := OrEmpty(p.konto);
      ktyp := OrEmpty(p.ktyp);
      enhet := OrEmpty(p.enhet);
      sru := OrEmpty(p.sru);
      dim := OrEmpty(p.dim);
      underdim := OrEmpty(p.underdim);
      objekt := OrEmpty(p.objekt);
      ib := OrEmpty(p.ib);
      ub := OrEmpty(p.ub);
      oib := OrEmpty(p.oib);
      oub := OrEmpty(p.oub);
      res := OrEmpty(p.res);
      psaldo := OrEmpty(p.psaldo);
      pbudget := OrEmpty(p.pbudget);
      ver := OrEmpty(p.ver);
      new;
      DefaultedTyped(p);
    }

    /**
     * The public constructor SIE4Document(items): fails as getItem does
     * on the first single-item type with several items.
     */
    static method FromItems(items: seq<Record>) returns (r: Result<Sie4Document>)
      ensures r.Ok? <==> AtMostOne(items)
      ensures r.Err? ==> ItemsFields(items) == Err(r.error)
      ensures r.Ok? ==> fresh(r.value) && r.value.Valid() && r.value.State() == FieldsOf(items)
    {
      var p :- ItemsParts(items);
      ItemsPartsValue(items);
      FieldsOfTyped(items);
      var d := new Sie4Document.FromParts(p);
      r := Ok(d);
    }

    /** getItems: every field in the order of the item types, absent single items left out. */
    method GetItems() returns (items: seq<Record>)
      ensures items == Listing(State())
    {
      items := [];
      items := items + Opt(flagga);
      items := items + Opt(program);
      items := items + Opt(format);
      items := items + Opt(gen);
      items := items + Opt(sietyp);
      items := items + Opt(prosa);
      items := items + Opt(ftyp);
      items := items + Opt(fnr);
      items := items + Opt(orgnr);
      items := items + Opt(bkod);
      items := items + Opt(adress);
      items := items + Opt(fnamn);
      items := items + rar;
      items := items + Opt(taxar);
      items := items + Opt(omfattn);
      items := items + Opt(kptyp);
      items := items + Opt(valuta);
      items := items + konto;
      items := items + ktyp;
      items := items + enhet;
      items := items + sru;
      items := items + dim;
      items := items + underdim;
      items := items + objekt;
      items := items + ib;
      items := items + ub;
      items := items + oib;
      items := items + oub;
      items := items + res;
      items := items + psaldo;
      items := items + pbudget;
      items := items + ver;
      ListingAppends(State());
    }

    /** setFlagga: replaces this field, which may be set to null, and no other. */
    method SetFlagga(value: Option<Record>)
      requires value.Some? ==> value.value.Flagga?
      modifies this
      ensures State() == old(State()).(flagga := value)
      ensures old(Valid()) ==> Valid()
    {
      flagga := value;
    }

    /** setProgram: replaces this field, which may be set to null, and no other. */
    method SetProgram(value: Option<Record>)
      requires value.Some? ==> value.value.Program?
      modifies this
      ensures State() == old(State()).(program := value)
      ensures old(Valid()) ==> Valid()
    {
      program := value;
    }

    /** setFormat: replaces this field, which may be set to null, and no other. */
    method SetFormat(value: Option<Record>)
      requires value.Some? ==> value.value.Format?
      modifies this
      ensures State() == old(State()).(format := value)
      ensures old(Valid()) ==> Valid()
    {
      format := value;
    }

    /** setGen: replaces this field, which may be set to null, and no other. */
    method SetGen(value: Option<Record>)
      requires value.Some? ==> value.value.Gen?
      modifies this
      ensures State() == old(State()).(gen := value)
      ensures old(Valid()) ==> Valid()
    {
      gen := value;
    }

    /** setSietyp: replaces this field, which may be set to null, and no other. */
    method SetSietyp(value: Option<Record>)
      requires value.Some? ==> value.value.Sietyp?
      modifies this
      ensures State() == old(State()).(sietyp := value)
      ensures old(Valid()) ==> Valid()
    {
      sietyp := value;
    }

    /** setProsa: replaces this field, which may be set to null, and no other. */
    method SetProsa(value: Option<Record>)
      requires value.Some? ==> value.value.Prosa?
      modifies this
      ensures State() == old(State()).(prosa := value)
      ensures old(Valid()) ==> Valid()
    {
      prosa := value;
    }

    /** setFtyp: replaces this field, which may be set to null, and no other. */
    method SetFtyp(value: Option<Record>)
      requires value.Some? ==> value.value.Ftyp?
      modifies this
      ensures State() == old(State()).(ftyp := value)
      ensures old(Valid()) ==> Valid()
    {
      ftyp := value;
    }

    /** setFnr: replaces this field, which may be set to null, and no other. */
    method SetFnr(value: Option<Record>)
      requires value.Some? ==> value.value.Fnr?
      modifies this
      ensures State() == old(State()).(fnr := value)
      ensures old(Valid()) ==> Valid()
    {
      fnr := value;
    }

    /** setOrgnr: replaces this field, which may be set to null, and no other. */
    method SetOrgnr(value: Option<Record>)
      requires value.Some? ==> value.value.OrgNr?
      modifies this
      ensures State() == old(State()).(orgnr := value)
      ensures old(Valid()) ==> Valid()
    {
      orgnr := value;
    }

    /** setBkod: replaces this field, which may be set to null, and no other. */
    method SetBkod(value: Option<Record>)
      requires value.Some? ==> value.value.Bkod?
      modifies this
      ensures State() == old(State()).(bkod := value)
      ensures old(Valid()) ==> Valid()
    {
      bkod := value;
    }

    /** setAdress: replaces this field, which may be set to null, and no other. */
    method SetAdress(value: Option<Record>)
      requires value.Some? ==> value.value.Adress?
      modifies this
      ensures State() == old(State()).(adress := value)
      ensures old(Valid()) ==> Valid()
    {
      adress := value;
    }

    /** setFnamn: replaces this field, which may be set to null, and no other. */
    method SetFnamn(value: Option<Record>)
      requires value.Some? ==> value.value.Fnamn?
      modifies this
      ensures State() == old(State()).(fnamn := value)
      ensures old(Valid()) ==> Valid()
    {
      fnamn := value;
    }

    /** setRar: replaces this list, and no other field. */
    method SetRar(value: seq<Record>)
      requires forall x :: x in value ==> x.Rar?
      modifies this
      ensures State() == old(State()).(rar := value)
      ensures old(Valid()) ==> Valid()
    {
      rar := value;
    }

    /** setTaxar: replaces this field, which may be set to null, and no other. */
    method SetTaxar(value: Option<Record>)
      requires value.Some? ==> value.value.Taxar?
      modifies this
      ensures State() == old(State()).(taxar := value)
      ensures old(Valid()) ==> Valid()
    {
      taxar := value;
    }

    /** setOmfattn: replaces this field, which may be set to null, and no other. */
    method SetOmfattn(value: Option<Record>)
      requires value.Some? ==> value.value.Omfattn?
      modifies this
      ensures State() == old(State()).(omfattn := value)
      ensures old(Valid()) ==> Valid()
    {
      omfattn := value;
    }

    /** setKptyp: replaces this field, which may be set to null, and no other. */
    method SetKptyp(value: Option<Record>)
      requires value.Some? ==> value.value.Kptyp?
      modifies this
      ensures State() == old(State()).(kptyp := value)
      ensures old(Valid()) ==> Valid()
    {
      kptyp := value;
    }

    /** setValuta: replaces this field, which may be set to null, and no other. */
    method SetValuta(value: Option<Record>)
      requires value.Some? ==> value.value.Valuta?
      modifies this
      ensures State() == old(State()).(valuta := value)
      ensures old(Valid()) ==> Valid()
    {
      valuta := value;
    }

    /** setKonto: replaces this list, and no other field. */
    method SetKonto(value: seq<Record>)
      requires forall x :: x in value ==> x.Konto?
      modifies this
      ensures State() == old(State()).(konto := value)
      ensures old(Valid()) ==> Valid()
    {
      konto := value;
    }

    /** setKtyp: replaces this list, and no other field. */
    method SetKtyp(value: seq<Record>)
      requires forall x :: x in value ==> x.Ktyp?
      modifies this
      ensures State() == old(State()).(ktyp := value)
      ensures old(Valid()) ==> Valid()
    {
      ktyp := value;
    }

    /** setEnhet: replaces this list, and no other field. */
    method SetEnhet(value: seq<Record>)
      requires forall x :: x in value ==> x.Enhet?
      modifies this
      ensures State() == old(State()).(enhet := value)
      ensures old(Valid()) ==> Valid()
    {
      enhet := value;
    }

    /** setSru: replaces this list, and no other field. */
    method SetSru(value: seq<Record>)
      requires forall x :: x in value ==> x.Sru?
      modifies this
      ensures State() == old(State()).(sru := value)
      ensures old(Valid()) ==> Valid()
    {
      sru := value;
    }

    /** setDim: replaces this list, and no other field. */
    method SetDim(value: seq<Record>)
      requires forall x :: x in value ==> x.Dim?
      modifies this
      ensures State() == old(State()).(dim := value)
      ensures old(Valid()) ==> Valid()
    {
      dim := value;
    }

    /** setUnderdim: replaces this list, and no other field. */
    method SetUnderdim(value: seq<Record>)
      requires forall x :: x in value ==> x.Underdim?
      modifies this
      ensures State() == old(State()).(underdim := value)
      ensures old(Valid()) ==> Valid()
    {
      underdim := value;
    }

    /** setObjekt: replaces this list, and no other field. */
    method SetObjekt(value: seq<Record>)
      requires forall x :: x in value ==> x.Objekt?
      modifies this
      ensures State() == old(State()).(objekt := value)
      ensures old(Valid()) ==> Valid()
    {
      objekt := value;
    }

    /** setIb: replaces this list, and no other field. */
    method SetIb(value: seq<Record>)
      requires forall x :: x in value ==> x.Ib?
      modifies this
      ensures State() == old(State()).(ib := value)
      ensures old(Valid()) ==> Valid()
    {
      ib := value;
    }

    /** setUb: replaces this list, and no other field. */
    method SetUb(value: seq<Record>)
      requires forall x :: x in value ==> x.Ub?
      modifies this
      ensures State() == old(State()).(ub := value)
      ensures old(Valid()) ==> Valid()
    {
      ub := value;
    }

    /** setOib: replaces this list, and no other field. */
    method SetOib(value: seq<Record>)
      requires forall x :: x in value ==> x.Oib?
      modifies this
      ensures State() == old(State()).(oib := value)
      ensures old(Valid()) ==> Valid()
    {
      oib := value;
    }

    /** setOub: replaces this list, and no other field. */
    method SetOub(value: seq<Record>)
      requires forall x :: x in value ==> x.Oub?
      modifies this
      ensures State() == old(State()).(oub := value)
      ensures old(Valid()) ==> Valid()
    {
      oub := value;
    }

    /** setRes: replaces this list, and no other field. */
    method SetRes(value: seq<Record>)
      requires forall x :: x in value ==> x.Res?
      modifies this
      ensures State() == old(State()).(res := value)
      ensures old(Valid()) ==> Valid()
    {
      res := value;
    }

    /** setPsaldo: replaces this list, and no other field. */
    method SetPsaldo(value: seq<Record>)
      requires forall x :: x in value ==> x.Psaldo?
      modifies this
      ensures State() == old(State()).(psaldo := value)
      ensures old(Valid()) ==> Valid()
    {
      psaldo := value;
    }

    /** setPbudget: replaces this list, and no other field. */
    method SetPbudget(value: seq<Record>)
      requires forall x :: x in value ==> x.Pbudget?
      modifies this
      ensures State() == old(State()).(pbudget := value)
      ensures old(Valid()) ==> Valid()
    {
      pbudget := value;
    }

    /** setVer: replaces this list, and no other field. */
    method SetVer(value: seq<Record>)
      requires forall x :: x in value ==> x.Ver?
      modifies this
      ensures State() == old(State()).(ver := value)
      ensures old(Valid()) ==> Valid()
    {
      ver := value;
    }
  }

  /**
   * SIE4Document.Builder: every field starts null and is set by its own
   * method, which returns the builder itself.
   */
  class Builder {
    var flagga: Option<Record>
    var program: Option<Record>
    var format: Option<Record>
    var gen: Option<Record>
    var sietyp: Option<Record>
    var prosa: Option<Record>
    var ftyp: Option<Record>
    var fnr: Option<Record>
    var orgnr: Option<Record>
    var bkod: Option<Record>
    var adress: Option<Record>
    var fnamn: Option<Record>
    var rar: Option<seq<Record>>
    var taxar: Option<Record>
    var omfattn: Option<Record>
    var kptyp: Option<Record>
    var valuta: Option<Record>
    var konto: Option<seq<Record>>
    var ktyp: Option<seq<Record>>
    var enhet: Option<seq<Record>>
    var sru: Option<seq<Record>>
    var dim: Option<seq<Record>>
    var underdim: Option<seq<Record>>
    var objekt: Option<seq<Record>>
    var ib: Option<seq<Record>>
    var ub: Option<seq<Record>>
    var oib: Option<seq<Record>>
    var oub: Option<seq<Record>>
    var res: Option<seq<Record>>
    var psaldo: Option<seq<Record>>
    var pbudget: Option<seq<Record>>
    var ver: Option<seq<Record>>

    /** The builder's fields as one value. */
    function Current(): Parts
      reads this
    {
      Parts(flagga, program, format, gen, sietyp, prosa, ftyp, fnr, orgnr, bkod, adress, fnamn, rar, taxar, omfattn, kptyp, valuta, konto, ktyp, enhet, sru, dim, underdim, objekt, ib, ub, oib, oub, res, psaldo, pbudget, ver)
    }

    /** Every field set holds records of its own type. */
    predicate Valid()
      reads this
    {
      PartsTyped(Current())
    }

    /** SIE4Document.builder(): nothing set. */
    constructor ()
      ensures Current() == NoParts && Valid()
    {
      flagga := None;
      program := None;
      format := None;
      gen := None;
      sietyp := None;
      prosa := None;
      ftyp := None;
      fnr := None;
      orgnr := None;
      bkod := None;
      adress := None;
      fnamn := None;
      rar := None;
      taxar := None;
      omfattn := None;
      kptyp := None;
      valuta := None;
      konto := None;
      ktyp := None;
      enhet := None;
      sru := None;
      dim := None;
      underdim := None;
      objekt := None;
      ib := None;
      ub := None;
      oib := None;
      oub := None;
      res := None;
      psaldo := None;
      pbudget := None;
      ver := None;
    }

    method WithFlagga(value: Option<Record>) returns (b: Builder)
      requires value.Some? ==> value.value.Flagga?
      modifies this
      ensures b == this && Current() == old(Current()).(flagga := value)
      ensures old(Valid()) ==> Valid()
    {
      flagga := value;
      b := this;
    }

    method WithProgram(value: Option<Record>) returns (b: Builder)
      requires value.Some? ==> value.value.Program?
      modifies this
      ensures b == this && Current() == old(Current()).(program := value)
      ensures old(Valid()) ==> Valid()
    {
      program := value;
      b := this;
    }

    method WithFormat(value: Option<Record>) returns (b: Builder)
      requires value.Some? ==> value.value.Format?
      modifies this
      ensures b == this && Current() == old(Current()).(format := value)
      ensures old(Valid()) ==> Valid()
    {
      format := value;
      b := this;
    }

    method WithGen(value: Option<Record>) returns (b: Builder)
      requires value.Some? ==> value.value.Gen?
      modifies this
      ensures b == this && Current() == old(Current()).(gen := value)
      ensures old(Valid()) ==> Valid()
    {
      gen := value;
      b := this;
    }

    method WithSietyp(value: Option<Record>) returns (b: Builder)
      requires value.Some? ==> value.value.Sietyp?
      modifies this
      ensures b == this && Current() == old(Current()).(sietyp := value)
      ensures old(Valid()) ==> Valid()
    {
      sietyp := value;
      b := this;
    }

    method WithProsa(value: Option<Record>) returns (b: Builder)
      requires value.Some? ==> value.value.Prosa?
      modifies this
      ensures b == this && Current() == old(Current()).(prosa := value)
      ensures old(Valid()) ==> Valid()
    {
      prosa := value;
      b := this;
    }

    method WithFtyp(value: Option<Record>) returns (b: Builder)
      requires value.Some? ==> value.value.Ftyp?
      modifies this
      ensures b == this && Current() == old(Current()).(ftyp := value)
      ensures old(Valid()) ==> Valid()
    {
      ftyp := value;
      b := this;
    }

    method WithFnr(value: Option<Record>) returns (b: Builder)
      requires value.Some? ==> value.value.Fnr?
      modifies this
      ensures b == this && Current() == old(Current()).(fnr := value)
      ensures old(Valid()) ==> Valid()
    {
      fnr := value;
      b := this;
    }

    method WithOrgnr(value: Option<Record>) returns (b: Builder)
      requires value.Some? ==> value.value.OrgNr?
      modifies this
      ensures b == this && Current() == old(Current()).(orgnr := value)
      ensures old(Valid()) ==> Valid()
    {
      orgnr := value;
      b := this;
    }

    method WithBkod(value: Option<Record>) returns (b: Builder)
      requires value.Some? ==> value.value.Bkod?
      modifies this
      ensures b == this && Current() == old(Current()).(bkod := value)
      ensures old(Valid()) ==> Valid()
    {
      bkod := value;
      b := this;
    }

    method WithAdress(value: Option<Record>) returns (b: Builder)
      requires value.Some? ==> value.value.Adress?
      modifies this
      ensures b == this && Current() == old(Current()).(adress := value)
      ensures old(Valid()) ==> Valid()
    {
      adress := value;
      b := this;
    }

    method WithFnamn(value: Option<Record>) returns (b: Builder)
      requires value.Some? ==> value.value.Fnamn?
      modifies this
      ensures b == this && Current() == old(Current()).(fnamn := value)
      ensures old(Valid()) ==> Valid()
    {
      fnamn := value;
      b := this;
    }

    method WithRar(value: seq<Record>) returns (b: Builder)
      requires forall x :: x in value ==> x.Rar?
      modifies this
      ensures b == this && Current() == old(Current()).(rar := Some(value))
      ensures old(Valid()) ==> Valid()
    {
      rar := Some(value);
      b := this;
    }

    method WithTaxar(value: Option<Record>) returns (b: Builder)
      requires value.Some? ==> value.value.Taxar?
      modifies this
      ensures b == this && Current() == old(Current()).(taxar := value)
      ensures old(Valid()) ==> Valid()
    {
      taxar := value;
      b := this;
    }

    method WithOmfattn(value: Option<Record>) returns (b: Builder)
      requires value.Some? ==> value.value.Omfattn?
      modifies this
      ensures b == this && Current() == old(Current()).(omfattn := value)
      ensures old(Valid()) ==> Valid()
    {
      omfattn := value;
      b := this;
    }

    method WithKptyp(value: Option<Record>) returns (b: Builder)
      requires value.Some? ==> value.value.Kptyp?
      modifies this
      ensures b == this && Current() == old(Current()).(kptyp := value)
      ensures old(Valid()) ==> Valid()
    {
      kptyp := value;
      b := this;
    }

    method WithValuta(value: Option<Record>) returns (b: Builder)
      requires value.Some? ==> value.value.Valuta?
      modifies this
      ensures b == this && Current() == old(Current()).(valuta := value)
      ensures old(Valid()) ==> Valid()
    {
      valuta := value;
      b := this;
    }

    method WithKonto(value: seq<Record>) returns (b: Builder)
      requires forall x :: x in value ==> x.Konto?
      modifies this
      ensures b == this && Current() == old(Current()).(konto := Some(value))
      ensures old(Valid()) ==> Valid()
    {
      konto := Some(value);
      b := this;
    }

    method WithKtyp(value: seq<Record>) returns (b: Builder)
      requires forall x :: x in value ==> x.Ktyp?
      modifies this
      ensures b == this && Current() == old(Current()).(ktyp := Some(value))
      ensures old(Valid()) ==> Valid()
    {
      ktyp := Some(value);
      b := this;
    }

    method WithEnhet(value: seq<Record>) returns (b: Builder)
      requires forall x :: x in value ==> x.Enhet?
      modifies this
      ensures b == this && Current() == old(Current()).(enhet := Some(value))
      ensures old(Valid()) ==> Valid()
    {
      enhet := Some(value);
      b := this;
    }

    method WithSru(value: seq<Record>) returns (b: Builder)
      requires forall x :: x in value ==> x.Sru?
      modifies this
      ensures b == this && Current() == old(Current()).(sru := Some(value))
      ensures old(Valid()) ==> Valid()
    {
      sru := Some(value);
      b := this;
    }

    method WithDim(value: seq<Record>) returns (b: Builder)
      requires forall x :: x in value ==> x.Dim?
      modifies this
      ensures b == this && Current() == old(Current()).(dim := Some(value))
      ensures old(Valid()) ==> Valid()
    {
      dim := Some(value);
      b := this;
    }

    method WithUnderdim(value: seq<Record>) returns (b: Builder)
      requires forall x :: x in value ==> x.Underdim?
      modifies this
      ensures b == this && Current() == old(Current()).(underdim := Some(value))
      ensures old(Valid()) ==> Valid()
    {
      underdim := Some(value);
      b := this;
    }

    method WithObjekt(value: seq<Record>) returns (b: Builder)
      requires forall x :: x in value ==> x.Objekt?
      modifies this
      ensures b == this && Current() == old(Current()).(objekt := Some(value))
      ensures old(Valid()) ==> Valid()
    {
      objekt := Some(value);
      b := this;
    }

    method WithIb(value: seq<Record>) returns (b: Builder)
      requires forall x :: x in value ==> x.Ib?
      modifies this
      ensures b == this && Current() == old(Current()).(ib := Some(value))
      ensures old(Valid()) ==> Valid()
    {
      ib := Some(value);
      b := this;
    }

    method WithUb(value: seq<Record>) returns (b: Builder)
      requires forall x :: x in value ==> x.Ub?
      modifies this
      ensures b == this && Current() == old(Current()).(ub := Some(value))
      ensures old(Valid()) ==> Valid()
    {
      ub := Some(value);
      b := this;
    }

    method WithOib(value: seq<Record>) returns (b: Builder)
      requires forall x :: x in value ==> x.Oib?
      modifies this
      ensures b == this && Current() == old(Current()).(oib := Some(value))
      ensures old(Valid()) ==> Valid()
    {
      oib := Some(value);
      b := this;
    }

    method WithOub(value: seq<Record>) returns (b: Builder)
      requires forall x :: x in value ==> x.Oub?
      modifies this
      ensures b == this && Current() == old(Current()).(oub := Some(value))
      ensures old(Valid()) ==> Valid()
    {
      oub := Some(value);
      b := this;
    }

    method WithRes(value: seq<Record>) returns (b: Builder)
      requires forall x :: x in value ==> x.Res?
      modifies this
      ensures b == this && Current() == old(Current()).(res := Some(value))
      ensures old(Valid()) ==> Valid()
    {
      res := Some(value);
      b := this;
    }

    method WithPsaldo(value: seq<Record>) returns (b: Builder)
      requires forall x :: x in value ==> x.Psaldo?
      modifies this
      ensures b == this && Current() == old(Current()).(psaldo := Some(value))
      ensures old(Valid()) ==> Valid()
    {
      psaldo := Some(value);
      b := this;
    }

    method WithPbudget(value: seq<Record>) returns (b: Builder)
      requires forall x :: x in value ==> x.Pbudget?
      modifies this
      ensures b == this && Current() == old(Current()).(pbudget := Some(value))
      ensures old(Valid()) ==> Valid()
    {
      pbudget := Some(value);
      b := this;
    }

    method WithVer(value: seq<Record>) returns (b: Builder)
      requires forall x :: x in value ==> x.Ver?
      modifies this
      ensures b == this && Current() == old(Current()).(ver := Some(value))
      ensures old(Valid()) ==> Valid()
    {
      ver := Some(value);
      b := this;
    }

    /** build(): every field through the private, defaulting constructor. */
    method Build() returns (d: Sie4Document)
      requires Valid()
      ensures fresh(d) && d.State() == Defaulted(Current()) && d.Valid()
    {
      d := new Sie4Document.FromParts(Current());
    }
  }

  /** IdentificationItems; an absent field is null in the source. */
  datatype IdentificationItems = IdentificationItems(
    flag: Option<Int32>,
    programWithVersion: Option<string>,
    generatedAt: Option<LocalDate>,
    sieType: Option<Int32>,
    comment: Option<string>,
    kptyp: Option<string>,
    currencyCode: Option<string>,
    taxYear: Option<Int32>,
    periods: seq<FinancialYear>,
    contactPerson: Option<string>,
    address: Option<string>,
    phoneNumber: Option<string>,
    sniCode: Option<Int32>,
    companyType: Option<CompanyType>,
    companyName: Option<string>,
    organizationNumber: Option<string>)

  /** mapOrNull: a null item stays null, any other is mapped. */
  function MapOrNull<O>(item: Option<Record>, mapper: Record --> O): (r: Option<O>)
    requires item.Some? ==> mapper.requires(item.value)
    ensures r.None? <==> item.None?
    ensures r.Some? ==> r.value == mapper(item.value)
  {
    if item.Some? then Some(mapper(item.value)) else None
  }

  /**
   * One FinancialYear per RAR item, in order; the constructor of the
   * top-level FinancialYear refuses a year that ends before it starts.
   */
  function Periods(rars: seq<Record>): (r: Result<seq<FinancialYear>>)
    requires forall i :: 0 <= i < |rars| ==> rars[i].Rar?
    ensures r.Ok? <==> forall i :: 0 <= i < |rars| ==> !IsBefore(rars[i].end, rars[i].start)
    ensures r.Ok? ==> (|r.value| == |rars|
      && forall i :: 0 <= i < |rars| ==> r.value[i] == FinancialYear(rars[i].start, rars[i].end))
  {
    if |rars| == 0 then Ok([])
    else
      var first := NewFinancialYear(rars[0].start, rars[0].end);
      var rest := Periods(rars[1..]);
      assert forall i :: 1 <= i < |rars| ==> rars[1..][i - 1] == rars[i];
      if first.Err? then Err(first.error)
      else if rest.Err? then Err(rest.error)
      else Ok([first.value] + rest.value)
  }

  /**
   * getIdentificationItems: each single field mapped to its value, the
   * RAR list turned into financial years, which fails as the
   * FinancialYear constructor does.
   */
  function Identification(f: Fields): (r: Result<IdentificationItems>)
    requires Typed(f)
    ensures r.Ok? <==> forall i :: 0 <= i < |f.rar| ==> !IsBefore(f.rar[i].end, f.rar[i].start)
  {
    assert forall i :: 0 <= i < |f.rar| ==> f.rar[i] in f.rar;
    var periods :- Periods(f.rar);
    Ok(IdentificationItems(
      MapOrNull(f.flagga, (x: Record) requires x.Flagga? => x.flag),
      MapOrNull(f.program, (x: Record) requires x.Program? => ProgramText(x)),
      MapOrNull(f.gen, (x: Record) requires x.Gen? => x.date),
      MapOrNull(f.sietyp, (x: Record) requires x.Sietyp? => x.typeNo),
      MapOrNull(f.prosa, (x: Record) requires x.Prosa? => x.comment),
      MapOrNull(f.kptyp, (x: Record) requires x.Kptyp? => x.kind),
      MapOrNull(f.valuta, (x: Record) requires x.Valuta? => x.currencyCode),
      MapOrNull(f.taxar, (x: Record) requires x.Taxar? => x.year),
      periods,
      MapOrNull(f.adress, (x: Record) requires x.Adress? => x.contact),
      MapOrNull(f.adress, (x: Record) requires x.Adress? => AddressText(x)),
      MapOrNull(f.adress, (x: Record) requires x.Adress? => x.tel),
      MapOrNull(f.bkod, (x: Record) requires x.Bkod? => x.sniCode),
      MapOrNull(f.ftyp, (x: Record) requires x.Ftyp? => x.companyType),
      MapOrNull(f.fnamn, (x: Record) requires x.Fnamn? => x.companyName),
      MapOrNull(f.orgnr, (x: Record) requires x.OrgNr? => x.orgNr)))
  }

  /**
   * The program is "name, version" of the PROGRAM item and the address
   * "distribution postal" of the ADRESS item; each is null exactly when
   * its item is; there is one period per RAR item, in order.
   */
  lemma {:induction false} IdentificationTexts(f: Fields)
    requires Typed(f) && Identification(f).Ok?
    ensures Identification(f).value.programWithVersion.None? <==> f.program.None?
    ensures f.program.Some? ==> Identification(f).value.programWithVersion == Some(ProgramText(f.program.value))
    ensures Identification(f).value.address.None? <==> f.adress.None?
    ensures f.adress.Some? ==> Identification(f).value.address == Some(AddressText(f.adress.value))
    ensures |Identification(f).value.periods| == |f.rar|
    ensures forall i :: 0 <= i < |f.rar| ==>
      Identification(f).value.periods[i] == FinancialYear(f.rar[i].start, f.rar[i].end)
  {
    assert forall i :: 0 <= i < |f.rar| ==> f.rar[i] in f.rar;
  }

  /**
   * A document from the constructor always has a flag to identify: the
   * FLAGGA item's, or 0 from Flagga.UNSET when the parts had none.
   */
  lemma {:induction false} IdentificationFlag(p: Parts)
    requires PartsTyped(p) && Identification(Defaulted(p)).Ok?
    ensures Identification(Defaulted(p)).value.flag.Some?
    ensures p.flagga.None? ==> Identification(Defaulted(p)).value.flag == Some(0)
    ensures p.flagga.Some? ==> Identification(Defaulted(p)).value.flag == Some(p.flagga.value.flag)
  {
    DefaultedTyped(p);
  }

  /**
   * A document built from a list identifies the company and the file as
   * SIE4Content does: the same address and the same program text.
   */
  lemma {:induction false} IdentificationAgreesWithContent(items: seq<Record>)
    requires AtMostOne(items)
    requires Typed(FieldsOf(items)) && Identification(FieldsOf(items)).Ok?
    ensures GetOrgInfo(Content(items)).Ok?
    ensures Identification(FieldsOf(items)).value.address == GetOrgInfo(Content(items)).value.address
    ensures GetFileInfo(Content(items)).Ok? ==>
      Identification(FieldsOf(items)).value.programWithVersion == GetFileInfo(Content(items)).value.programWithVersion
  {
    FieldsOfTyped(items);
    OrgInfoFails(Content(items));
    GetItemFirst(items, ADRESS);
    GetItemFirst(items, PROGRAM);
  }
}
