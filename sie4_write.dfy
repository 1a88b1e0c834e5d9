/*
 * SIE4.write: the validation gate in front of the printer, and the
 * entries it prints.
 */
module Sie4Writer {
  import opened Wrappers
  import opened Text
  import opened Items
  import opened OutFieldMapper
  import opened Validator
  import opened Sie4

  /** SIE4.WriteOptions */
  datatype WriteOption = SIE4I | SKIP_VALIDATION

  /** The errors write refuses to print for: none when validation is skipped, else 4I's or 4E's. */
  function WriteErrors(items: seq<Record>, options: seq<WriteOption>): seq<ValidationError> {
    if SKIP_VALIDATION in options then []
    else if SIE4I in options then Sie4iErrors(items)
    else Sie4eErrors(items)
  }

  /** The name of each error, in order. */
  function ErrorNames(errors: seq<ValidationError>): (names: seq<string>)
    ensures |names| == |errors| && forall i :: 0 <= i < |errors| ==> names[i] == ErrorName(errors[i])
  {
    seq(|errors|, i requires 0 <= i < |errors| => ErrorName(errors[i]))
  }

  /** The message of the refusal: the error names joined by ", " after "Validation failed: ". */
  function FailureMessage(errors: seq<ValidationError>): string {
    "Validation failed: " + Join(ErrorNames(errors), ", ")
  }

  /**
   * SIE4.write: unless told to skip it, validate under 4I or (by default)
   * 4E and refuse on any error; otherwise print toFileString of every item
   * in list order.  The result holds the printed entries.
   */
  method Write(items: seq<Record>, options: seq<WriteOption>) returns (r: Result<seq<string>>)
    ensures SKIP_VALIDATION in options ==> r.Ok?
    ensures r.Err? <==> WriteErrors(items, options) != []
    ensures r.Err? ==> r.error == ValidationFailed(FailureMessage(WriteErrors(items, options)))
    ensures r.Ok? ==> |r.value| == |items| && forall i :: 0 <= i < |items| ==> r.value[i] == FileString(items[i])
  {
    if SKIP_VALIDATION !in options {
      var errors: seq<ValidationError>;
      if SIE4I in options {
        errors := ValidateSie4i(items);
      } else {
        errors := ValidateSie4e(items);
      }
      if errors != [] {
        return Err(ValidationFailed("Validation failed: " + Join(ErrorNames(errors), ", ")));
      }
    }
    var printed := PrintAll(items);
    return Ok(printed);
  }

  /** The printing loop of write: toFileString of every item, in list order. */
  method PrintAll(items: seq<Record>) returns (printed: seq<string>)
    ensures |printed| == |items| && forall i :: 0 <= i < |items| ==> printed[i] == FileString(items[i])
  {
    printed := [];
    var i := 0;
    while i < |items|
      invariant 0 <= i <= |items|
      invariant |printed| == i && forall j :: 0 <= j < i ==> printed[j] == FileString(items[j])
    {
      var line := FileString(items[i]);
      assert forall j :: 0 <= j < i ==> (printed + [line])[j] == printed[j];
      printed := printed + [line];
      i := i + 1;
    }
  }

  /**
   * What a validated write guarantees about what it prints: under 4I every
   * type 4I requires is present and none it forbids; under 4E every type
   * 4E requires is present.
   */
  lemma {:induction false} ValidatedWriteComplete(items: seq<Record>, options: seq<WriteOption>)
    requires SKIP_VALIDATION !in options && WriteErrors(items, options) == []
    ensures SIE4I in options ==> forall t :: t in MandatorySie4I ==> exists i :: 0 <= i < |items| && TypeOf(items[i]) == t
    ensures SIE4I in options ==> forall i :: 0 <= i < |items| ==> TypeOf(items[i]) !in ForbiddenSie4I
    ensures SIE4I !in options ==> forall t :: t in MandatorySie4E ==> exists i :: 0 <= i < |items| && TypeOf(items[i]) == t
  {
    if SIE4I in options {
      Sie4iMissingIff(items);
      Sie4iForbiddenIff(items);
    } else {
      Sie4eMissingIff(items);
    }
  }

  /** The message of a refused write names every error found, separated by ", ". */
  lemma {:induction false} FailureMessageNames(errors: seq<ValidationError>)
    requires |errors| == 2
    ensures FailureMessage(errors) == "Validation failed: " + ErrorName(errors[0]) + ", " + ErrorName(errors[1])
  {
    var names := ErrorNames(errors);
    assert names[1..] == [ErrorName(errors[1])];
    assert Join(names, ", ") == ErrorName(errors[0]) + ", " + ErrorName(errors[1]);
  }

  /** A file that passes 4E also has every type 4I requires, so only 4I's forbidden types can still refuse it. */
  lemma {:induction false} Sie4eThenSie4i(items: seq<Record>)
    requires WriteErrors(items, []) == []
    ensures WriteErrors(items, [SIE4I]) == [] <==> forall i :: 0 <= i < |items| ==> TypeOf(items[i]) !in ForbiddenSie4I
  {
    Sie4eCoversSie4i(items);
    Sie4iForbiddenIff(items);
  }
}
