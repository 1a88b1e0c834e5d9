/*
 * The records a SIE 4 file is made of: one variant per item type, the
 * item types in file order, the type each record reports, and which
 * types the two file profiles (4E and 4I) make mandatory.
 *
 * SIE4Item and the older FileItem have the same shapes and are both
 * modelled by Record.
 */
module Items {
  import opened Wrappers
  import opened Text
  import opened Numbers
  import opened Calendar
  import opened Values

  /** The kinds of account of a KTYP item. */
  datatype AccountType = T | S | K | I

  /** AccountType.name() */
  function AccountTypeName(a: AccountType): string {
    match a
    case T => "T"
    case S => "S"
    case K => "K"
    case I => "I"
  }

  /** The company types of an FTYP item. Only AB is known here. */
  datatype CompanyType = AB

  /** CompanyType.name() */
  function CompanyTypeName(c: CompanyType): string {
    match c
    case AB => "AB"
  }

  /** The three transaction records, which share one layout. */
  datatype TransKind = Trans | Rtrans | Btrans

  /** The common layout of TRANS, RTRANS and BTRANS. */
  datatype Transaction = Transaction(
    kind: TransKind,
    accountNo: Int32,
    amount: Decimal,
    objectReferences: seq<ObjectReference>,
    transactionDate: Option<LocalDate>,
    text: Option<string>,
    quantity: Option<Decimal>,
    sign: Option<string>)

  datatype Record =
    | Adress(contact: string, distributionAddress: string, postalAddress: string, tel: string)
    | Bkod(sniCode: Int32)
    | Dim(dimensionNo: Int32, name: string)
    | Enhet(accountNo: Int32, unit: string)
    | Flagga(flag: Int32)
    | Fnamn(companyName: string)
    | Fnr(companyId: string)
    | Format(format: string)
    | Ftyp(companyType: CompanyType)
    | Gen(date: LocalDate, signature: Option<string>)
    | Ib(yearNumber: YearNumber, accountNo: Int32, balance: Decimal, quantity: Option<Decimal>)
    | Konto(accountNo: Int32, accountName: string)
    | Kptyp(kind: string)
    | Ktyp(accountNo: Int32, accountType: AccountType)
    | Objekt(dimensionNo: Int32, objectNo: string, objectName: string)
    | Oib(yearNumber: YearNumber, accountNo: Int32, objectReference: ObjectReference, balance: Decimal, quantity: Option<Decimal>)
    | Omfattn(date: LocalDate)
    | OrgNr(orgNr: string, acqNo: Option<Int32>, actNo: Option<Int32>)
    | Oub(yearNumber: YearNumber, accountNo: Int32, objectReference: ObjectReference, balance: Decimal, quantity: Option<Decimal>)
    | Pbudget(yearNumber: YearNumber, period: Period, accountNo: Int32, optionalObjectReference: Option<ObjectReference>, balance: Decimal, quantity: Option<Decimal>)
    | Program(programName: string, version: string)
    | Prosa(comment: string)
    | Psaldo(yearNumber: YearNumber, period: Period, accountNo: Int32, optionalObjectReference: Option<ObjectReference>, balance: Decimal, quantity: Option<Decimal>)
    | Rar(yearNumber: YearNumber, start: LocalDate, end: LocalDate)
    | Res(yearNumber: YearNumber, accountNo: Int32, balance: Decimal, quantity: Option<Decimal>)
    | Sietyp(typeNo: Int32)
    | Sru(accountNo: Int32, sruCode: Int32)
    | Taxar(year: Int32)
    | Ub(yearNumber: YearNumber, account: Int32, balance: Decimal, quantity: Option<Decimal>)
    | Underdim(dimensionNo: Int32, name: string, superDimensionNo: Int32)
    | Valuta(currencyCode: string)
    | Ver(date: LocalDate, series: Option<string>, verificationNo: Option<string>, text: Option<string>,
          regDate: Option<LocalDate>, sign: Option<string>, transactions: seq<Transaction>)
    | Tx(tx: Transaction)

  /** SIE4ItemType, in the order the items appear in a file. */
  datatype ItemType =
    | FLAGGA | PROGRAM | FORMAT | GEN | SIETYP | PROSA | FTYP | FNR | ORGNR | BKOD | ADRESS | FNAMN
    | RAR | TAXAR | OMFATTN | KPTYP | VALUTA | KONTO | KTYP | ENHET | SRU | DIM | UNDERDIM | OBJEKT
    | IB | UB | OIB | OUB | RES | PSALDO | PBUDGET | VER | TRANS | RTRANS | BTRANS

  /** The position of a type in the enumeration. */
  function Ordinal(t: ItemType): (n: nat)
    ensures n < 35
  {
    match t
    case FLAGGA => 0 case PROGRAM => 1 case FORMAT => 2 case GEN => 3 case SIETYP => 4
    case PROSA => 5 case FTYP => 6 case FNR => 7 case ORGNR => 8 case BKOD => 9
    case ADRESS => 10 case FNAMN => 11 case RAR => 12 case TAXAR => 13 case OMFATTN => 14
    case KPTYP => 15 case VALUTA => 16 case KONTO => 17 case KTYP => 18 case ENHET => 19
    case SRU => 20 case DIM => 21 case UNDERDIM => 22 case OBJEKT => 23 case IB => 24
    case UB => 25 case OIB => 26 case OUB => 27 case RES => 28 case PSALDO => 29
    case PBUDGET => 30 case VER => 31 case TRANS => 32 case RTRANS => 33 case BTRANS => 34
  }

  /** The name of a type, which is also the label it has in a file. */
  function TagName(t: ItemType): string {
    match t
    case FLAGGA => "FLAGGA" case PROGRAM => "PROGRAM" case FORMAT => "FORMAT" case GEN => "GEN"
    case SIETYP => "SIETYP" case PROSA => "PROSA" case FTYP => "FTYP" case FNR => "FNR"
    case ORGNR => "ORGNR" case BKOD => "BKOD" case ADRESS => "ADRESS" case FNAMN => "FNAMN"
    case RAR => "RAR" case TAXAR => "TAXAR" case OMFATTN => "OMFATTN" case KPTYP => "KPTYP"
    case VALUTA => "VALUTA" case KONTO => "KONTO" case KTYP => "KTYP" case ENHET => "ENHET"
    case SRU => "SRU" case DIM => "DIM" case UNDERDIM => "UNDERDIM" case OBJEKT => "OBJEKT"
    case IB => "IB" case UB => "UB" case OIB => "OIB" case OUB => "OUB" case RES => "RES"
    case PSALDO => "PSALDO" case PBUDGET => "PBUDGET" case VER => "VER" case TRANS => "TRANS"
    case RTRANS => "RTRANS" case BTRANS => "BTRANS"
  }

  /**
   * Label.valueOf: the type whose name is exactly `s`, if any. The names
   * are sorted by their first letter before they are compared.
   */
  function LabelOf(s: string): Option<ItemType> {
    if |s| == 0 then None
    else match s[0]
      case 'A' => if s == "ADRESS" then Some(ADRESS) else None
      case 'B' => if s == "BKOD" then Some(BKOD) else if s == "BTRANS" then Some(BTRANS) else None
      case 'D' => if s == "DIM" then Some(DIM) else None
      case 'E' => if s == "ENHET" then Some(ENHET) else None
      case 'F' =>
        if s == "FLAGGA" then Some(FLAGGA) else if s == "FNAMN" then Some(FNAMN)
        else if s == "FNR" then Some(FNR) else if s == "FORMAT" then Some(FORMAT)
        else if s == "FTYP" then Some(FTYP) else None
      case 'G' => if s == "GEN" then Some(GEN) else None
      case 'I' => if s == "IB" then Some(IB) else None
      case 'K' =>
        if s == "KONTO" then Some(KONTO) else if s == "KPTYP" then Some(KPTYP)
        else if s == "KTYP" then Some(KTYP) else None
      case 'O' =>
        if s == "OBJEKT" then Some(OBJEKT) else if s == "OIB" then Some(OIB)
        else if s == "OMFATTN" then Some(OMFATTN) else if s == "ORGNR" then Some(ORGNR)
        else if s == "OUB" then Some(OUB) else None
      case 'P' =>
        if s == "PBUDGET" then Some(PBUDGET) else if s == "PROGRAM" then Some(PROGRAM)
        else if s == "PROSA" then Some(PROSA) else if s == "PSALDO" then Some(PSALDO) else None
      case 'R' =>
        if s == "RAR" then Some(RAR) else if s == "RES" then Some(RES)
        else if s == "RTRANS" then Some(RTRANS) else None
      case 'S' => if s == "SIETYP" then Some(SIETYP) else if s == "SRU" then Some(SRU) else None
      case 'T' => if s == "TAXAR" then Some(TAXAR) else if s == "TRANS" then Some(TRANS) else None
      case 'U' => if s == "UB" then Some(UB) else if s == "UNDERDIM" then Some(UNDERDIM) else None
      case 'V' => if s == "VALUTA" then Some(VALUTA) else if s == "VER" then Some(VER) else None
      case _ => None
  }

  /**
   * The types in four groups of nine or fewer, in enumeration order. The
   * lemmas below about all 35 types are proved one group at a time, which
   * keeps each proof small.
   */
  const FirstGroup: set<ItemType> := {FLAGGA, PROGRAM, FORMAT, GEN, SIETYP, PROSA, FTYP, FNR, ORGNR}
  const SecondGroup: set<ItemType> := {BKOD, ADRESS, FNAMN, RAR, TAXAR, OMFATTN, KPTYP, VALUTA, KONTO}
  const ThirdGroup: set<ItemType> := {KTYP, ENHET, SRU, DIM, UNDERDIM, OBJEKT, IB, UB, OIB}
  const FourthGroup: set<ItemType> := {OUB, RES, PSALDO, PBUDGET, VER, TRANS, RTRANS, BTRANS}

  /** Every type is in one of the groups. */
  lemma {:induction false} GroupsCover(t: ItemType)
    ensures t in FirstGroup || t in SecondGroup || t in ThirdGroup || t in FourthGroup
  {
  }

  lemma {:induction false} LabelOfTagNameFirst(t: ItemType)
    requires t in FirstGroup
    ensures LabelOf(TagName(t)) == Some(t)
  {
    match t
    case FLAGGA =>
    case PROGRAM =>
    case FORMAT =>
    case GEN =>
    case SIETYP =>
    case PROSA =>
    case FTYP =>
    case FNR =>
    case ORGNR =>
  }

  lemma {:induction false} LabelOfTagNameSecond(t: ItemType)
    requires t in SecondGroup
    ensures LabelOf(TagName(t)) == Some(t)
  {
    match t
    case BKOD =>
    case ADRESS =>
    case FNAMN =>
    case RAR =>
    case TAXAR =>
    case OMFATTN =>
    case KPTYP =>
    case VALUTA =>
    case KONTO =>
  }

  lemma {:induction false} LabelOfTagNameThird(t: ItemType)
    requires t in ThirdGroup
    ensures LabelOf(TagName(t)) == Some(t)
  {
    match t
    case KTYP =>
    case ENHET =>
    case SRU =>
    case DIM =>
    case UNDERDIM =>
    case OBJEKT =>
    case IB =>
    case UB =>
    case OIB =>
  }

  lemma {:induction false} LabelOfTagNameFourth(t: ItemType)
    requires t in FourthGroup
    ensures LabelOf(TagName(t)) == Some(t)
  {
    match t
    case OUB =>
    case RES =>
    case PSALDO =>
    case PBUDGET =>
    case VER =>
    case TRANS =>
    case RTRANS =>
    case BTRANS =>
  }

  /** Every type is found again from its name, so no two types share a name. */
  lemma {:induction false} LabelOfTagName(t: ItemType)
    ensures LabelOf(TagName(t)) == Some(t)
  {
    GroupsCover(t);
    if t in FirstGroup { LabelOfTagNameFirst(t); }
    else if t in SecondGroup { LabelOfTagNameSecond(t); }
    else if t in ThirdGroup { LabelOfTagNameThird(t); }
    else { LabelOfTagNameFourth(t); }
  }

  /** A non-empty word of upper-case ASCII letters. */
  predicate IsUpperWord(s: string) {
    |s| > 0 && forall i :: 0 <= i < |s| ==> 'A' <= s[i] <= 'Z'
  }

  lemma {:induction false} TagNameLettersFirst(t: ItemType)
    requires t in FirstGroup
    ensures IsUpperWord(TagName(t))
  {
    match t
    case FLAGGA =>
    case PROGRAM =>
    case FORMAT =>
    case GEN =>
    case SIETYP =>
    case PROSA =>
    case FTYP =>
    case FNR =>
    case ORGNR =>
  }

  lemma {:induction false} TagNameLettersSecond(t: ItemType)
    requires t in SecondGroup
    ensures IsUpperWord(TagName(t))
  {
    match t
    case BKOD =>
    case ADRESS =>
    case FNAMN =>
    case RAR =>
    case TAXAR =>
    case OMFATTN =>
    case KPTYP =>
    case VALUTA =>
    case KONTO =>
  }

  lemma {:induction false} TagNameLettersThird(t: ItemType)
    requires t in ThirdGroup
    ensures IsUpperWord(TagName(t))
  {
    match t
    case KTYP =>
    case ENHET =>
    case SRU =>
    case DIM =>
    case UNDERDIM =>
    case OBJEKT =>
    case IB =>
    case UB =>
    case OIB =>
  }

  lemma {:induction false} TagNameLettersFourth(t: ItemType)
    requires t in FourthGroup
    ensures IsUpperWord(TagName(t))
  {
    match t
    case OUB =>
    case RES =>
    case PSALDO =>
    case PBUDGET =>
    case VER =>
    case TRANS =>
    case RTRANS =>
    case BTRANS =>
  }

  /** The label names are upper-case ASCII words. */
  lemma {:induction false} TagNameLetters(t: ItemType)
    ensures IsUpperWord(TagName(t))
  {
    GroupsCover(t);
    if t in FirstGroup { TagNameLettersFirst(t); }
    else if t in SecondGroup { TagNameLettersSecond(t); }
    else if t in ThirdGroup { TagNameLettersThird(t); }
    else { TagNameLettersFourth(t); }
  }

  function KindType(kind: TransKind): ItemType {
    match kind
    case Trans => TRANS
    case Rtrans => RTRANS
    case Btrans => BTRANS
  }

  /** itemType() of every record variant. */
  function TypeOf(r: Record): ItemType {
    match r
    case Adress(_, _, _, _) => ADRESS
    case Bkod(_) => BKOD
    case Dim(_, _) => DIM
    case Enhet(_, _) => ENHET
    case Flagga(_) => FLAGGA
    case Fnamn(_) => FNAMN
    case Fnr(_) => FNR
    case Format(_) => FORMAT
    case Ftyp(_) => FTYP
    case Gen(_, _) => GEN
    case Ib(_, _, _, _) => IB
    case Konto(_, _) => KONTO
    case Kptyp(_) => KPTYP
    case Ktyp(_, _) => KTYP
    case Objekt(_, _, _) => OBJEKT
    case Oib(_, _, _, _, _) => OIB
    case Omfattn(_) => OMFATTN
    case OrgNr(_, _, _) => ORGNR
    case Oub(_, _, _, _, _) => OUB
    case Pbudget(_, _, _, _, _, _) => PBUDGET
    case Program(_, _) => PROGRAM
    case Prosa(_) => PROSA
    case Psaldo(_, _, _, _, _, _) => PSALDO
    case Rar(_, _, _) => RAR
    case Res(_, _, _, _) => RES
    case Sietyp(_) => SIETYP
    case Sru(_, _) => SRU
    case Taxar(_) => TAXAR
    case Ub(_, _, _, _) => UB
    case Underdim(_, _, _) => UNDERDIM
    case Valuta(_) => VALUTA
    case Ver(_, _, _, _, _, _, _) => VER
    case Tx(t) => KindType(t.kind)
  }

  /** `r` is a record of type `t`, read from `t`'s side: one constructor test per type. */
  predicate HasType(r: Record, t: ItemType) {
    match t
    case FLAGGA => r.Flagga? case PROGRAM => r.Program? case FORMAT => r.Format? case GEN => r.Gen?
    case SIETYP => r.Sietyp? case PROSA => r.Prosa? case FTYP => r.Ftyp? case FNR => r.Fnr?
    case ORGNR => r.OrgNr? case BKOD => r.Bkod? case ADRESS => r.Adress? case FNAMN => r.Fnamn?
    case RAR => r.Rar? case TAXAR => r.Taxar? case OMFATTN => r.Omfattn? case KPTYP => r.Kptyp?
    case VALUTA => r.Valuta? case KONTO => r.Konto? case KTYP => r.Ktyp? case ENHET => r.Enhet?
    case SRU => r.Sru? case DIM => r.Dim? case UNDERDIM => r.Underdim? case OBJEKT => r.Objekt?
    case IB => r.Ib? case UB => r.Ub? case OIB => r.Oib? case OUB => r.Oub? case RES => r.Res?
    case PSALDO => r.Psaldo? case PBUDGET => r.Pbudget? case VER => r.Ver?
    case TRANS => r.Tx? && r.tx.kind == Trans
    case RTRANS => r.Tx? && r.tx.kind == Rtrans
    case BTRANS => r.Tx? && r.tx.kind == Btrans
  }

  lemma {:induction false} HasTypeTypeOfFirst(r: Record, t: ItemType)
    requires t in FirstGroup && HasType(r, t)
    ensures TypeOf(r) == t
  {
    match t
    case FLAGGA =>
    case PROGRAM =>
    case FORMAT =>
    case GEN =>
    case SIETYP =>
    case PROSA =>
    case FTYP =>
    case FNR =>
    case ORGNR =>
  }

  lemma {:induction false} TypeOfHasTypeFirst(r: Record, t: ItemType)
    requires t in FirstGroup && TypeOf(r) == t
    ensures HasType(r, t)
  {
    match t
    case FLAGGA =>
    case PROGRAM =>
    case FORMAT =>
    case GEN =>
    case SIETYP =>
    case PROSA =>
    case FTYP =>
    case FNR =>
    case ORGNR =>
  }

  lemma {:induction false} HasTypeTypeOfSecond(r: Record, t: ItemType)
    requires t in SecondGroup && HasType(r, t)
    ensures TypeOf(r) == t
  {
    match t
    case BKOD =>
    case ADRESS =>
    case FNAMN =>
    case RAR =>
    case TAXAR =>
    case OMFATTN =>
    case KPTYP =>
    case VALUTA =>
    case KONTO =>
  }

  lemma {:induction false} TypeOfHasTypeSecond(r: Record, t: ItemType)
    requires t in SecondGroup && TypeOf(r) == t
    ensures HasType(r, t)
  {
    match t
    case BKOD =>
    case ADRESS =>
    case FNAMN =>
    case RAR =>
    case TAXAR =>
    case OMFATTN =>
    case KPTYP =>
    case VALUTA =>
    case KONTO =>
  }

  lemma {:induction false} HasTypeTypeOfThird(r: Record, t: ItemType)
    requires t in ThirdGroup && HasType(r, t)
    ensures TypeOf(r) == t
  {
    match t
    case KTYP =>
    case ENHET =>
    case SRU =>
    case DIM =>
    case UNDERDIM =>
    case OBJEKT =>
    case IB =>
    case UB =>
    case OIB =>
  }

  lemma {:induction false} TypeOfHasTypeThird(r: Record, t: ItemType)
    requires t in ThirdGroup && TypeOf(r) == t
    ensures HasType(r, t)
  {
    match t
    case KTYP =>
    case ENHET =>
    case SRU =>
    case DIM =>
    case UNDERDIM =>
    case OBJEKT =>
    case IB =>
    case UB =>
    case OIB =>
  }

  lemma {:induction false} HasTypeTypeOfFourth(r: Record, t: ItemType)
    requires t in FourthGroup && HasType(r, t)
    ensures TypeOf(r) == t
  {
    match t
    case OUB =>
    case RES =>
    case PSALDO =>
    case PBUDGET =>
    case VER =>
    case TRANS =>
    case RTRANS =>
    case BTRANS =>
  }

  lemma {:induction false} TypeOfHasTypeFourth(r: Record, t: ItemType)
    requires t in FourthGroup && TypeOf(r) == t
    ensures HasType(r, t)
  {
    match t
    case OUB =>
    case RES =>
    case PSALDO =>
    case PBUDGET =>
    case VER =>
    case TRANS =>
    case RTRANS =>
    case BTRANS =>
  }

  /** The constructor test of a type holds exactly for the records reporting that type. */
  lemma {:induction false} HasTypeTypeOf(r: Record, t: ItemType)
    ensures HasType(r, t) <==> TypeOf(r) == t
  {
    GroupsCover(t);
    if t in FirstGroup {
      if HasType(r, t) { HasTypeTypeOfFirst(r, t); }
      if TypeOf(r) == t { TypeOfHasTypeFirst(r, t); }
    } else if t in SecondGroup {
      if HasType(r, t) { HasTypeTypeOfSecond(r, t); }
      if TypeOf(r) == t { TypeOfHasTypeSecond(r, t); }
    } else if t in ThirdGroup {
      if HasType(r, t) { HasTypeTypeOfThird(r, t); }
      if TypeOf(r) == t { TypeOfHasTypeThird(r, t); }
    } else {
      if HasType(r, t) { HasTypeTypeOfFourth(r, t); }
      if TypeOf(r) == t { TypeOfHasTypeFourth(r, t); }
    }
  }

  /** The records of the Transaction interface are exactly those of the three transaction types. */
  lemma {:induction false} TransactionTypes(r: Record)
    ensures r.Tx? <==> TypeOf(r) in {TRANS, RTRANS, BTRANS}
    ensures r.Tx? ==> TypeOf(r) == KindType(r.tx.kind)
  {
  }

  /** isMandatorySie4I: FLAGGA, FNAMN, FORMAT, GEN, PROGRAM and SIETYP. */
  predicate IsMandatorySie4I(r: Record) {
    r.Flagga? || r.Fnamn? || r.Format? || r.Gen? || r.Program? || r.Sietyp?
  }

  /** isMandatorySie4E: the 4I ones and IB, KONTO, RAR, RES and UB. */
  predicate IsMandatorySie4E(r: Record) {
    r.Flagga? || r.Fnamn? || r.Format? || r.Gen? || r.Program? || r.Sietyp?
    || r.Ib? || r.Konto? || r.Rar? || r.Res? || r.Ub?
  }
}
