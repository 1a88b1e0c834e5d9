/*
 * The read-only views over a parsed list of items: SIE4Items and
 * SIE4Content.  Both filter the list by item type and look a type up
 * with an at-most-one check; SIE4Content adds the verifications, the
 * organisation info and the file info.
 */
module Content {
  import opened Wrappers
  import opened Numbers
  import opened Calendar
  import opened Values
  import opened Items

  /** getItems(c): the items of type `t`, in list order. */
  function Filter(items: seq<Record>, t: ItemType): (r: seq<Record>)
    ensures |r| <= |items|
  {
    if |items| == 0 then []
    else
      var rest := Filter(items[1..], t);
      if HasType(items[0], t) then [items[0]] + rest else rest
  }

  /** The filter holds exactly the items of type `t`. */
  lemma {:induction false} FilterMembers(items: seq<Record>, t: ItemType)
    ensures forall x :: x in Filter(items, t) <==> x in items && HasType(x, t)
  {
    if |items| > 0 {
      FilterMembers(items[1..], t);
      assert forall x :: x in items <==> x == items[0] || x in items[1..];
    }
  }

  /** Filtering keeps the order of the list: it distributes over concatenation. */
  lemma {:induction false} FilterAppend(a: seq<Record>, b: seq<Record>, t: ItemType)
    ensures Filter(a + b, t) == Filter(a, t) + Filter(b, t)
  {
    if |a| > 0 {
      assert (a + b)[1..] == a[1..] + b;
      FilterAppend(a[1..], b, t);
    } else {
      assert a + b == b;
    }
  }

  /** A list whose items all have type `t` is its own filter. */
  lemma {:induction false} FilterKeepsAll(items: seq<Record>, t: ItemType)
    requires forall i :: 0 <= i < |items| ==> HasType(items[i], t)
    ensures Filter(items, t) == items
  {
    if |items| > 0 {
      FilterKeepsAll(items[1..], t);
    }
  }

  /** A list with no item of type `t` filters to nothing. */
  lemma {:induction false} FilterDropsAll(items: seq<Record>, t: ItemType)
    requires forall i :: 0 <= i < |items| ==> !HasType(items[i], t)
    ensures Filter(items, t) == []
  {
    if |items| > 0 {
      FilterDropsAll(items[1..], t);
    }
  }

  /** Two items of type `t` at different places both survive the filter. */
  lemma {:induction false} FilterTwo(items: seq<Record>, t: ItemType, i: nat, j: nat)
    requires i < j < |items| && HasType(items[i], t) && HasType(items[j], t)
    ensures |Filter(items, t)| >= 2
  {
    if i > 0 {
      FilterTwo(items[1..], t, i - 1, j - 1);
    } else {
      FilterMembers(items[1..], t);
      assert items[j] in items[1..];
      assert items[j] in Filter(items[1..], t);
    }
  }

  /** A filter holding two items comes from two places in the list. */
  lemma {:induction false} TwoFromFilter(items: seq<Record>, t: ItemType)
    requires |Filter(items, t)| >= 2
    ensures exists i, j :: 0 <= i < j < |items| && HasType(items[i], t) && HasType(items[j], t)
  {
    var rest := Filter(items[1..], t);
    FilterMembers(items[1..], t);
    if HasType(items[0], t) {
      assert rest != [];
      var x := rest[0];
      assert x in items[1..];
      var k :| 0 <= k < |items[1..]| && items[1..][k] == x;
      assert HasType(items[0], t) && HasType(items[k + 1], t);
    } else {
      TwoFromFilter(items[1..], t);
      var i, j :| 0 <= i < j < |items[1..]| && HasType(items[1..][i], t) && HasType(items[1..][j], t);
      assert HasType(items[i + 1], t) && HasType(items[j + 1], t);
    }
  }

  /** Two items of type `t` at different places. */
  predicate Several(items: seq<Record>, t: ItemType) {
    exists i, j :: 0 <= i < j < |items| && HasType(items[i], t) && HasType(items[j], t)
  }

  /** Several items have type `t` exactly when the filter holds more than one. */
  lemma {:induction false} SeveralIff(items: seq<Record>, t: ItemType)
    ensures Several(items, t) <==> |Filter(items, t)| > 1
  {
    if Several(items, t) {
      var i, j :| 0 <= i < j < |items| && HasType(items[i], t) && HasType(items[j], t);
      FilterTwo(items, t, i, j);
    }
    if |Filter(items, t)| > 1 {
      TwoFromFilter(items, t);
    }
  }

  /**
   * getItem(c): failure when more than one item has type `t`, otherwise
   * the one that has it, if any.
   */
  function GetItem(items: seq<Record>, t: ItemType): (r: Result<Option<Record>>)
    ensures r.Err? <==> Several(items, t)
    ensures r.Ok? && r.value.Some? ==> HasType(r.value.value, t)
  {
    var found := Filter(items, t);
    SeveralIff(items, t);
    FilterMembers(items, t);
    if |found| > 1 then
      Err(MoreThanOne(TagName(t)))
    else
      if |found| == 0 then
        Ok(None)
      else
        assert found[0] in found;
        Ok(Some(found[0]))
  }

  /** getItem's failure names the tag of the type looked up. */
  lemma {:induction false} GetItemError(items: seq<Record>, t: ItemType)
    requires Several(items, t)
    ensures GetItem(items, t) == Err(MoreThanOne(TagName(t)))
  {
    SeveralIff(items, t);
  }

  /**
   * getItem finds nothing exactly when no item has type `t`, and what it
   * finds is an item of the list, the only one of its type.
   */
  lemma {:induction false} GetItemFinds(items: seq<Record>, t: ItemType)
    ensures GetItem(items, t) == Ok(None) <==> forall i :: 0 <= i < |items| ==> !HasType(items[i], t)
    ensures GetItem(items, t).Ok? && GetItem(items, t).value.Some? ==>
      GetItem(items, t).value.value in items
      && forall i :: 0 <= i < |items| && HasType(items[i], t) ==> items[i] == GetItem(items, t).value.value
  {
    var found := Filter(items, t);
    SeveralIff(items, t);
    FilterMembers(items, t);
    assert forall i :: 0 <= i < |items| ==> items[i] in items;
    if 0 < |found| {
      assert found[0] in found;
    }
    if |found| == 1 {
      assert forall x :: x in found ==> x == found[0];
    }
  }

  /** When getItem does not fail, it finds an item exactly when getItems finds some. */
  lemma {:induction false} GetItemAgreesWithFilter(items: seq<Record>, t: ItemType)
    requires GetItem(items, t).Ok?
    ensures GetItem(items, t).value.Some? <==> Filter(items, t) != []
  {
    FilterMembers(items, t);
    if Filter(items, t) != [] {
      var x := Filter(items, t)[0];
      assert x in Filter(items, t);
      var i :| 0 <= i < |items| && items[i] == x;
    }
  }

  /** SIE4Items and SIE4Content: a wrapper around the parsed list. */
  datatype Content = Content(items: seq<Record>)

  /** getVerifications: getItems(Ver). */
  function Verifications(c: Content): (r: seq<Record>)
    ensures forall x :: x in r <==> x in c.items && x.Ver?
    ensures forall x :: x in r ==> x.Ver?
  {
    FilterMembers(c.items, VER);
    Filter(c.items, VER)
  }

  /** OrgInfo; an absent field is null in the source. */
  datatype OrgInfo = OrgInfo(
    contactPerson: Option<string>,
    address: Option<string>,
    phoneNumber: Option<string>,
    sniCode: Option<Int32>,
    companyName: Option<string>,
    companyType: Option<CompanyType>,
    organizationNumber: Option<string>)

  /** The address text of an ADRESS item: distribution address, a space, postal address. */
  function AddressText(a: Record): string
    requires a.Adress?
  {
    a.distributionAddress + " " + a.postalAddress
  }

  /** The org info from the items found, each mapped to its value when present. */
  function OrgInfoOf(adress: Option<Record>, bkod: Option<Record>, fnamn: Option<Record>,
                     ftyp: Option<Record>, orgnr: Option<Record>): OrgInfo
    requires adress.Some? ==> HasType(adress.value, ADRESS)
    requires bkod.Some? ==> HasType(bkod.value, BKOD)
    requires fnamn.Some? ==> HasType(fnamn.value, FNAMN)
    requires ftyp.Some? ==> HasType(ftyp.value, FTYP)
    requires orgnr.Some? ==> HasType(orgnr.value, ORGNR)
  {
    OrgInfo(
      if adress.Some? then Some(adress.value.contact) else None,
      if adress.Some? then Some(AddressText(adress.value)) else None,
      if adress.Some? then Some(adress.value.tel) else None,
      if bkod.Some? then Some(bkod.value.sniCode) else None,
      if fnamn.Some? then Some(fnamn.value.companyName) else None,
      if ftyp.Some? then Some(ftyp.value.companyType) else None,
      if orgnr.Some? then Some(orgnr.value.orgNr) else None)
  }

  /**
   * getOrgInfo: looks up ADRESS, BKOD, FNAMN, FTYP and ORGNR in that
   * order; fails on the first of them that has more than one item.
   */
  function GetOrgInfo(c: Content): Result<OrgInfo> {
    match GetItem(c.items, ADRESS)
    case Err(e) => Err(e)
    case Ok(adress) =>
      match GetItem(c.items, BKOD)
      case Err(e) => Err(e)
      case Ok(bkod) =>
        match GetItem(c.items, FNAMN)
        case Err(e) => Err(e)
        case Ok(fnamn) =>
          match GetItem(c.items, FTYP)
          case Err(e) => Err(e)
          case Ok(ftyp) =>
            match GetItem(c.items, ORGNR)
            case Err(e) => Err(e)
            case Ok(orgnr) => Ok(OrgInfoOf(adress, bkod, fnamn, ftyp, orgnr))
  }

  /** getOrgInfo fails exactly when one of the five types it looks up has several items. */
  lemma {:induction false} OrgInfoFails(c: Content)
    ensures GetOrgInfo(c).Err? <==> Several(c.items, ADRESS) || Several(c.items, BKOD) || Several(c.items, FNAMN)
                                    || Several(c.items, FTYP) || Several(c.items, ORGNR)
  {
  }

  /**
   * The org info has no address exactly when no item is an ADRESS item;
   * otherwise address, contact and telephone all come from the one
   * ADRESS item of the list.
   */
  lemma {:induction false} OrgInfoAddress(c: Content)
    requires GetOrgInfo(c).Ok?
    ensures GetOrgInfo(c).value.address.None? <==> forall i :: 0 <= i < |c.items| ==> !c.items[i].Adress?
    ensures GetOrgInfo(c).value.address.Some? ==>
      exists a :: (a in c.items && a.Adress? && GetOrgInfo(c).value.address.value == AddressText(a)
                   && GetOrgInfo(c).value.contactPerson == Some(a.contact)
                   && GetOrgInfo(c).value.phoneNumber == Some(a.tel))
  {
    OrgInfoAddressFound(c);
    GetItemFinds(c.items, ADRESS);
    assert forall x :: HasType(x, ADRESS) <==> x.Adress?;
    var adress := GetItem(c.items, ADRESS).value;
    if adress.Some? {
      assert adress.value in c.items;
    }
  }

  /** Address, contact and telephone of the org info come from the ADRESS item getItem finds. */
  lemma {:induction false} OrgInfoAddressFound(c: Content)
    requires GetOrgInfo(c).Ok?
    ensures GetItem(c.items, ADRESS).Ok?
    ensures var found := GetItem(c.items, ADRESS).value; var info := GetOrgInfo(c).value;
      && info.address == (if found.Some? then Some(AddressText(found.value)) else None)
      && info.contactPerson == (if found.Some? then Some(found.value.contact) else None)
      && info.phoneNumber == (if found.Some? then Some(found.value.tel) else None)
  {
  }

  /** FileInfo; an absent field is null in the source. */
  datatype FileInfo = FileInfo(
    flag: Option<Int32>,
    programWithVersion: Option<string>,
    generatedAt: Option<LocalDate>,
    kptyp: Option<string>,
    currencyCode: Option<string>,
    periods: seq<ContentYear>)

  /** The program text of a PROGRAM item: name, a comma and a space, version. */
  function ProgramText(p: Record): string
    requires p.Program?
  {
    p.programName + ", " + p.version
  }

  /**
   * SIE4Content.FinancialYear: the record nested in SIE4Content, which
   * getFileInfo builds.  Inside SIE4Content it hides the top-level
   * FinancialYear, so no check on the order of the two dates is made.
   */
  datatype ContentYear = ContentYear(from: LocalDate, to: LocalDate)

  /** One year per RAR item, in order, each from the item's first day to its last, whatever their order. */
  function FileInfoPeriods(rars: seq<Record>): (r: seq<ContentYear>)
    requires forall i :: 0 <= i < |rars| ==> rars[i].Rar?
    ensures |r| == |rars|
    ensures forall i :: 0 <= i < |rars| ==> r[i].from == rars[i].start && r[i].to == rars[i].end
  {
    seq(|rars|, i requires 0 <= i < |rars| => ContentYear(rars[i].start, rars[i].end))
  }

  /** The RAR items of a list, which are all RAR records. */
  function RarItems(items: seq<Record>): (r: seq<Record>)
    ensures forall i :: 0 <= i < |r| ==> r[i].Rar?
    ensures forall x :: x in r <==> x in items && x.Rar?
  {
    var r := Filter(items, RAR);
    FilterMembers(items, RAR);
    assert forall i :: 0 <= i < |r| ==> r[i] in r;
    r
  }

  /** The file info from the items found, each mapped to its value when present. */
  function FileInfoOf(flagga: Option<Record>, program: Option<Record>, gen: Option<Record>,
                      kptyp: Option<Record>, valuta: Option<Record>, periods: seq<ContentYear>): FileInfo
    requires flagga.Some? ==> HasType(flagga.value, FLAGGA)
    requires program.Some? ==> HasType(program.value, PROGRAM)
    requires gen.Some? ==> HasType(gen.value, GEN)
    requires kptyp.Some? ==> HasType(kptyp.value, KPTYP)
    requires valuta.Some? ==> HasType(valuta.value, VALUTA)
  {
    FileInfo(
      if flagga.Some? then Some(flagga.value.flag) else None,
      if program.Some? then Some(ProgramText(program.value)) else None,
      if gen.Some? then Some(gen.value.date) else None,
      if kptyp.Some? then Some(kptyp.value.kind) else None,
      if valuta.Some? then Some(valuta.value.currencyCode) else None,
      periods)
  }

  /**
   * getFileInfo: looks up FLAGGA, PROGRAM, GEN, KPTYP and VALUTA in that
   * order, failing on the first that has several items, then turns every
   * RAR item into a SIE4Content.FinancialYear.
   */
  function GetFileInfo(c: Content): Result<FileInfo> {
    match GetItem(c.items, FLAGGA)
    case Err(e) => Err(e)
    case Ok(flagga) =>
      match GetItem(c.items, PROGRAM)
      case Err(e) => Err(e)
      case Ok(program) =>
        match GetItem(c.items, GEN)
        case Err(e) => Err(e)
        case Ok(gen) =>
          match GetItem(c.items, KPTYP)
          case Err(e) => Err(e)
          case Ok(kptyp) =>
            match GetItem(c.items, VALUTA)
            case Err(e) => Err(e)
            case Ok(valuta) => Ok(FileInfoOf(flagga, program, gen, kptyp, valuta, FileInfoPeriods(RarItems(c.items))))
  }

  /**
   * getFileInfo fails exactly when one of the five types it looks up has
   * several items; the RAR items never make it fail, and its periods are
   * their first and last days, in list order.
   */
  lemma {:induction false} FileInfoFound(c: Content)
    ensures GetFileInfo(c).Err? <==> Several(c.items, FLAGGA) || Several(c.items, PROGRAM) || Several(c.items, GEN)
                                     || Several(c.items, KPTYP) || Several(c.items, VALUTA)
    ensures GetFileInfo(c).Ok? ==> GetFileInfo(c).value.periods == FileInfoPeriods(RarItems(c.items))
  {
  }

  /**
   * The program field of the file info is "name, version" of the one
   * PROGRAM item, and absent when there is none.
   */
  lemma {:induction false} FileInfoProgram(c: Content)
    requires GetFileInfo(c).Ok?
    ensures GetFileInfo(c).value.programWithVersion.None? <==> forall i :: 0 <= i < |c.items| ==> !c.items[i].Program?
    ensures forall i :: 0 <= i < |c.items| && c.items[i].Program? ==>
      GetFileInfo(c).value.programWithVersion == Some(ProgramText(c.items[i]))
  {
    FileInfoProgramFound(c);
    GetItemFinds(c.items, PROGRAM);
    assert forall x :: HasType(x, PROGRAM) <==> x.Program?;
  }

  /** The program field of the file info is the PROGRAM item getItem finds. */
  lemma {:induction false} FileInfoProgramFound(c: Content)
    requires GetFileInfo(c).Ok?
    ensures GetItem(c.items, PROGRAM).Ok?
    ensures var found := GetItem(c.items, PROGRAM).value;
      GetFileInfo(c).value.programWithVersion == if found.Some? then Some(ProgramText(found.value)) else None
  {
    assert GetItem(c.items, FLAGGA).Ok?;
  }
}
