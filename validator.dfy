/*
 * The validator run before a file is written: which item types the 4I
 * (import) and 4E (export) profiles require, which the 4I profile
 * forbids, and the errors a list of items is reported with.
 */
module Validator {
  import opened Items

  /** ValidationError */
  datatype ValidationError = MISSING_MANDATORY_ITEMS | FORBIDDEN_ITEMS_PRESENT

  /** ValidationError.toString(), the enum constant's name. */
  function ErrorName(e: ValidationError): string {
    match e
    case MISSING_MANDATORY_ITEMS => "MISSING_MANDATORY_ITEMS"
    case FORBIDDEN_ITEMS_PRESENT => "FORBIDDEN_ITEMS_PRESENT"
  }

  /** MANDATORY_ITEMS_SIE4I */
  const MandatorySie4I: set<ItemType> := {FLAGGA, PROGRAM, FORMAT, GEN, SIETYP, FNAMN}

  /** FORBIDDEN_ITEMS_SIE4I */
  const ForbiddenSie4I: set<ItemType> := {BKOD, OMFATTN, IB, UB, OIB, OUB, RES, PSALDO, PBUDGET}

  /** MANDATORY_ITEMS_SIE4E */
  const MandatorySie4E: set<ItemType> := {FLAGGA, PROGRAM, FORMAT, GEN, SIETYP, FNAMN, RAR, KONTO, IB, UB, RES}

  /** The distinct types of the top-level items. */
  function TypesOf(items: seq<Record>): set<ItemType> {
    set i | 0 <= i < |items| :: TypeOf(items[i])
  }

  /** checkMandatoryItems: the mandatory types no item has. */
  function MissingTypes(items: seq<Record>, mandatory: set<ItemType>): set<ItemType> {
    mandatory - TypesOf(items)
  }

  /** checkForbiddenItems: the forbidden types some item has. */
  function PresentTypes(items: seq<Record>, forbidden: set<ItemType>): set<ItemType> {
    forbidden * TypesOf(items)
  }

  /** A mandatory type is missing exactly when no item has it. */
  lemma {:induction false} MissingTypesIff(items: seq<Record>, mandatory: set<ItemType>)
    ensures Lacks(items, mandatory)
        <==> exists t :: t in mandatory && forall i :: 0 <= i < |items| ==> TypeOf(items[i]) != t
  {
    var missing := MissingTypes(items, mandatory);
    if missing != {} {
      var t :| t in missing;
      assert t in mandatory && forall i :: 0 <= i < |items| ==> TypeOf(items[i]) != t;
    }
    if exists t :: t in mandatory && forall i :: 0 <= i < |items| ==> TypeOf(items[i]) != t {
      var t :| t in mandatory && forall i :: 0 <= i < |items| ==> TypeOf(items[i]) != t;
      assert t !in TypesOf(items);
      assert t in missing;
    }
  }

  /** A forbidden type is present exactly when some item has it. */
  lemma {:induction false} PresentTypesIff(items: seq<Record>, forbidden: set<ItemType>)
    ensures Holds(items, forbidden) <==> exists i :: 0 <= i < |items| && TypeOf(items[i]) in forbidden
  {
    var present := PresentTypes(items, forbidden);
    if exists i :: 0 <= i < |items| && TypeOf(items[i]) in forbidden {
      var i :| 0 <= i < |items| && TypeOf(items[i]) in forbidden;
      assert TypeOf(items[i]) in present;
    }
    if present != {} {
      var t :| t in present;
      assert t in TypesOf(items);
      var i :| 0 <= i < |items| && TypeOf(items[i]) == t;
    }
  }

  /** Some mandatory type has no item. */
  predicate Lacks(items: seq<Record>, mandatory: set<ItemType>) {
    MissingTypes(items, mandatory) != {}
  }

  /** Some item has a forbidden type. */
  predicate Holds(items: seq<Record>, forbidden: set<ItemType>) {
    PresentTypes(items, forbidden) != {}
  }

  /**
   * The errors validateSie4i returns for `items`: at most two, each at
   * most once, a missing item reported before a forbidden one.
   */
  function Sie4iErrors(items: seq<Record>): (errors: seq<ValidationError>)
    ensures |errors| <= 2
    ensures forall i, j :: 0 <= i < j < |errors| ==>
      errors[i] == MISSING_MANDATORY_ITEMS && errors[j] == FORBIDDEN_ITEMS_PRESENT
  {
    (if Lacks(items, MandatorySie4I) then [MISSING_MANDATORY_ITEMS] else [])
    + (if Holds(items, ForbiddenSie4I) then [FORBIDDEN_ITEMS_PRESENT] else [])
  }

  /** The errors validateSie4e returns for `items`: at most one, never a forbidden item. */
  function Sie4eErrors(items: seq<Record>): (errors: seq<ValidationError>)
    ensures |errors| <= 1 && FORBIDDEN_ITEMS_PRESENT !in errors
  {
    if Lacks(items, MandatorySie4E) then [MISSING_MANDATORY_ITEMS] else []
  }

  /** validateSie4i: errors are appended to a fresh list, missing types first. */
  method ValidateSie4i(items: seq<Record>) returns (errors: seq<ValidationError>)
    ensures errors == Sie4iErrors(items)
    ensures MISSING_MANDATORY_ITEMS in errors <==> exists t :: t in MandatorySie4I && forall i :: 0 <= i < |items| ==> TypeOf(items[i]) != t
    ensures FORBIDDEN_ITEMS_PRESENT in errors <==> exists i :: 0 <= i < |items| && TypeOf(items[i]) in ForbiddenSie4I
  {
    errors := [];
    if Lacks(items, MandatorySie4I) {
      errors := errors + [MISSING_MANDATORY_ITEMS];
    }
    if Holds(items, ForbiddenSie4I) {
      errors := errors + [FORBIDDEN_ITEMS_PRESENT];
    }
    Sie4iMissingIff(items);
    Sie4iForbiddenIff(items);
  }

  /** validateSie4e: only missing mandatory types are reported. */
  method ValidateSie4e(items: seq<Record>) returns (errors: seq<ValidationError>)
    ensures errors == Sie4eErrors(items)
    ensures MISSING_MANDATORY_ITEMS in errors <==> exists t :: t in MandatorySie4E && forall i :: 0 <= i < |items| ==> TypeOf(items[i]) != t
    ensures FORBIDDEN_ITEMS_PRESENT !in errors
  {
    errors := [];
    if Lacks(items, MandatorySie4E) {
      errors := errors + [MISSING_MANDATORY_ITEMS];
    }
    Sie4eMissingIff(items);
  }

  /** 4I reports a missing item exactly when one of its six mandatory types has no item. */
  lemma {:induction false} Sie4iMissingIff(items: seq<Record>)
    ensures MISSING_MANDATORY_ITEMS in Sie4iErrors(items)
        <==> exists t :: t in MandatorySie4I && forall i :: 0 <= i < |items| ==> TypeOf(items[i]) != t
  {
    assert MISSING_MANDATORY_ITEMS in Sie4iErrors(items) <==> Lacks(items, MandatorySie4I);
    MissingTypesIff(items, MandatorySie4I);
  }

  /** 4I reports a forbidden item exactly when some item has one of its nine forbidden types. */
  lemma {:induction false} Sie4iForbiddenIff(items: seq<Record>)
    ensures FORBIDDEN_ITEMS_PRESENT in Sie4iErrors(items)
        <==> exists i :: 0 <= i < |items| && TypeOf(items[i]) in ForbiddenSie4I
  {
    assert FORBIDDEN_ITEMS_PRESENT in Sie4iErrors(items) <==> Holds(items, ForbiddenSie4I);
    PresentTypesIff(items, ForbiddenSie4I);
  }

  /** 4E reports a missing item exactly when one of its eleven mandatory types has no item. */
  lemma {:induction false} Sie4eMissingIff(items: seq<Record>)
    ensures MISSING_MANDATORY_ITEMS in Sie4eErrors(items)
        <==> exists t :: t in MandatorySie4E && forall i :: 0 <= i < |items| ==> TypeOf(items[i]) != t
  {
    assert MISSING_MANDATORY_ITEMS in Sie4eErrors(items) <==> Lacks(items, MandatorySie4E);
    MissingTypesIff(items, MandatorySie4E);
  }

  /** Only the set of distinct item types matters: reordering or duplicating items changes nothing. */
  lemma {:induction false} OnlyTypesMatter(a: seq<Record>, b: seq<Record>)
    requires forall r :: r in a <==> r in b
    ensures Sie4iErrors(a) == Sie4iErrors(b) && Sie4eErrors(a) == Sie4eErrors(b)
  {
    assert TypesOf(a) == TypesOf(b) by {
      forall t | t in TypesOf(a) ensures t in TypesOf(b) {
        var i :| 0 <= i < |a| && TypeOf(a[i]) == t;
        assert a[i] in b;
        var j :| 0 <= j < |b| && b[j] == a[i];
      }
      forall t | t in TypesOf(b) ensures t in TypesOf(a) {
        var j :| 0 <= j < |b| && TypeOf(b[j]) == t;
        assert b[j] in a;
        var i :| 0 <= i < |a| && a[i] == b[j];
      }
    }
  }

  /** Every type 4I requires, 4E requires too: a list that passes 4E lacks no 4I type. */
  lemma {:induction false} Sie4eCoversSie4i(items: seq<Record>)
    requires Sie4eErrors(items) == []
    ensures MISSING_MANDATORY_ITEMS !in Sie4iErrors(items)
  {
    assert MandatorySie4I <= MandatorySie4E;
    assert MissingTypes(items, MandatorySie4I) <= MissingTypes(items, MandatorySie4E);
  }

  /** Appending an item adds its type to the types present, and keeps the others. */
  lemma {:induction false} TypesOfSnoc(items: seq<Record>, x: Record)
    ensures TypesOf(items + [x]) == TypesOf(items) + {TypeOf(x)}
  {
    var all := items + [x];
    forall t | t in TypesOf(items) ensures t in TypesOf(all) {
      var i :| 0 <= i < |items| && TypeOf(items[i]) == t;
      assert all[i] == items[i];
    }
    forall t | t in TypesOf(all) ensures t in TypesOf(items) + {TypeOf(x)} {
      var i :| 0 <= i < |all| && TypeOf(all[i]) == t;
      if i < |items| { assert all[i] == items[i]; }
    }
    assert all[|items|] == x;
  }

  /** Adding an item whose type 4I does not forbid introduces no error, under either profile. */
  lemma {:induction false} AddingAllowedItem(items: seq<Record>, x: Record)
    requires TypeOf(x) !in ForbiddenSie4I
    ensures forall e :: e in Sie4iErrors(items + [x]) ==> e in Sie4iErrors(items)
    ensures forall e :: e in Sie4eErrors(items + [x]) ==> e in Sie4eErrors(items)
  {
    TypesOfSnoc(items, x);
    assert MissingTypes(items + [x], MandatorySie4I) <= MissingTypes(items, MandatorySie4I);
    assert MissingTypes(items + [x], MandatorySie4E) <= MissingTypes(items, MandatorySie4E);
    assert PresentTypes(items + [x], ForbiddenSie4I) == PresentTypes(items, ForbiddenSie4I);
  }

  /** isMandatorySie4I holds for a record exactly when the validator requires its type for 4I. */
  lemma {:induction false} MandatorySie4IAgrees(r: Record)
    ensures IsMandatorySie4I(r) <==> TypeOf(r) in MandatorySie4I
  {
    HasTypeTypeOf(r, FLAGGA);
    HasTypeTypeOf(r, PROGRAM);
    HasTypeTypeOf(r, FORMAT);
    HasTypeTypeOf(r, GEN);
    HasTypeTypeOf(r, SIETYP);
    HasTypeTypeOf(r, FNAMN);
  }

  /** isMandatorySie4E holds for a record exactly when the validator requires its type for 4E. */
  lemma {:induction false} MandatorySie4EAgrees(r: Record)
    ensures IsMandatorySie4E(r) <==> TypeOf(r) in MandatorySie4E
  {
    HasTypeTypeOf(r, FLAGGA);
    HasTypeTypeOf(r, PROGRAM);
    HasTypeTypeOf(r, FORMAT);
    HasTypeTypeOf(r, GEN);
    HasTypeTypeOf(r, SIETYP);
    HasTypeTypeOf(r, FNAMN);
    HasTypeTypeOf(r, RAR);
    HasTypeTypeOf(r, KONTO);
    HasTypeTypeOf(r, IB);
    HasTypeTypeOf(r, UB);
    HasTypeTypeOf(r, RES);
  }
}
