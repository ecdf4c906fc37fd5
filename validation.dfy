/**
 * Validation of the parameters of a price-prediction request: six required
 * fields, then integer and range checks on year and mileage. The result is the
 * list of error messages, empty for a valid request.
 */
module Validation {
  import opened Optional
  import opened Strings

  /** A request parameter as the JSON body delivers it. */
  datatype Value = Null | Str(s: string) | Int(n: int) | Float(x: real) | Bool(b: bool)

  type Params = map<string, Value>

  const RequiredFields: seq<string> := ["make", "model", "year", "mileage", "condition", "region"]

  /** The known conditions; an unknown one is accepted all the same. */
  const ValidConditions: set<string> := {"excellent", "good", "fair", "poor", "salvage", "like new", "new"}

  const YearRangeError: string := "'year' must be between 1980 and 2026"
  const YearIntegerError: string := "'year' must be an integer"
  const MileageRangeError: string := "'mileage' must be between 0 and 500,000"
  const MileageIntegerError: string := "'mileage' must be an integer"

  function MissingFieldError(field: string): string {
    "Missing required field: '" + field + "'"
  }

  lemma MissingFieldErrorInjective(f: string, g: string)
    requires MissingFieldError(f) == MissingFieldError(g)
    ensures f == g
  {
    var p := "Missing required field: '";
    assert MissingFieldError(f)[|p|..|p| + |f|] == f;
    assert MissingFieldError(g)[|p|..|p| + |g|] == g;
  }

  /** A field is missing when it is absent, null, or a string that is blank after strip(). */
  predicate Missing(params: Params, field: string) {
    field !in params || params[field].Null? || (params[field].Str? && Strip(params[field].s) == [])
  }

  /** int(x) for a float: truncation towards zero. */
  function Truncate(x: real): int {
    if x >= 0.0 then x.Floor else -((-x).Floor)
  }

  /** Python's int(v); None where it raises TypeError or ValueError. */
  function ToInt(v: Value): (r: Option<int>)
    ensures v.Null? ==> r == None
    ensures v.Int? ==> r == Some(v.n)
  {
    match v
    case Null => None
    case Str(s) => ParseInt(s)
    case Int(n) => Some(n)
    case Float(x) => Some(Truncate(x))
    case Bool(b) => Some(if b then 1 else 0)
  }

  /** One "Missing required field" error per missing field, in the order of `fields`. */
  function MissingErrors(fields: seq<string>, params: Params): (errs: seq<string>)
    ensures |errs| <= |fields|
  {
    if fields == [] then []
    else
      var last := fields[|fields| - 1];
      MissingErrors(fields[..|fields| - 1], params) + (if Missing(params, last) then [MissingFieldError(last)] else [])
  }

  /** The integer-and-range check applied to one present field. */
  function RangeErrors(params: Params, field: string, lo: int, hi: int, rangeError: string,
                       integerError: string): (errs: seq<string>)
    ensures |errs| <= 1
    ensures field !in params ==> errs == []
  {
    if field !in params then []
    else match ToInt(params[field])
      case None => [integerError]
      case Some(n) => if n < lo || n > hi then [rangeError] else []
  }

  function YearErrors(params: Params): seq<string> {
    RangeErrors(params, "year", 1980, 2026, YearRangeError, YearIntegerError)
  }

  function MileageErrors(params: Params): seq<string> {
    RangeErrors(params, "mileage", 0, 500000, MileageRangeError, MileageIntegerError)
  }

  /** Everything validate_predict_params reports, in order. */
  function Errors(params: Params): seq<string> {
    MissingErrors(RequiredFields, params) + YearErrors(params) + MileageErrors(params)
  }

  /** validate_predict_params */
  method ValidatePredictParams(params: Params) returns (errors: seq<string>)
    ensures errors == Errors(params)
  {
    errors := [];
    var i := 0;
    while i < |RequiredFields|
      invariant 0 <= i <= |RequiredFields|
      invariant errors == MissingErrors(RequiredFields[..i], params)
    {
      var field := RequiredFields[i];
      assert RequiredFields[..i + 1][..i] == RequiredFields[..i];
      if field !in params || params[field].Null? || (params[field].Str? && Strip(params[field].s) == []) {
        errors := errors + [MissingFieldError(field)];
      }
      i := i + 1;
    }
    assert RequiredFields[..i] == RequiredFields;
    if "year" in params {
      var y := ToInt(params["year"]);
      if y.None? {
        errors := errors + [YearIntegerError];
      } else if y.value < 1980 || y.value > 2026 {
        errors := errors + [YearRangeError];
      }
    }
    if "mileage" in params {
      var m := ToInt(params["mileage"]);
      if m.None? {
        errors := errors + [MileageIntegerError];
      } else if m.value < 0 || m.value > 500000 {
        errors := errors + [MileageRangeError];
      }
    }
    // The condition is looked up among ValidConditions, but an unknown one adds no error.
  }

  /** A missing field is reported exactly when it is one of `fields` and missing. */
  lemma {:induction false} MissingErrorsExact(fields: seq<string>, params: Params, f: string)
    ensures MissingFieldError(f) in MissingErrors(fields, params) <==> f in fields && Missing(params, f)
  {
    if fields != [] {
      var init, last := fields[..|fields| - 1], fields[|fields| - 1];
      MissingErrorsExact(init, params, f);
      assert fields == init + [last];
      if MissingFieldError(f) == MissingFieldError(last) {
        MissingFieldErrorInjective(f, last);
      }
    }
  }

  /** A request the validator must accept: every required field present and not blank, and
      year and mileage integers within their ranges. */
  predicate Acceptable(params: Params) {
    (forall f :: f in RequiredFields ==> !Missing(params, f))
    && "year" in params && "mileage" in params
    && ToInt(params["year"]).Some? && 1980 <= ToInt(params["year"]).value <= 2026
    && ToInt(params["mileage"]).Some? && 0 <= ToInt(params["mileage"]).value <= 500000
  }

  lemma {:induction false} NoMissingErrors(fields: seq<string>, params: Params)
    requires forall f :: f in fields ==> !Missing(params, f)
    ensures MissingErrors(fields, params) == []
  {
    if fields != [] {
      var init := fields[..|fields| - 1];
      assert forall f :: f in init ==> f in fields;
      NoMissingErrors(init, params);
    }
  }

  /** An empty error list means exactly an acceptable request. */
  lemma ErrorsEmptyIffAcceptable(params: Params)
    ensures Errors(params) == [] <==> Acceptable(params)
  {
    if Acceptable(params) {
      NoMissingErrors(RequiredFields, params);
    }
    if Errors(params) == [] {
      forall f | f in RequiredFields
        ensures !Missing(params, f)
      {
        MissingErrorsExact(RequiredFields, params, f);
      }
      assert !Missing(params, "year") && !Missing(params, "mileage");
    }
  }

  /** At most 8 errors: one per required field, plus one each for year and mileage. */
  lemma AtMostEightErrors(params: Params)
    ensures |Errors(params)| <= 8
  {
  }

  /** A blank year is reported twice: as missing and as not an integer. */
  lemma BlankYearTwoErrors(params: Params, s: string)
    requires "year" in params && params["year"] == Str(s) && Strip(s) == []
    ensures MissingFieldError("year") in Errors(params)
    ensures YearIntegerError in Errors(params)
  {
    MissingErrorsExact(RequiredFields, params, "year");
    ParseIntBlank(s);
  }

  /** Missing errors depend on each field's missing-ness alone. */
  lemma {:induction false} MissingErrorsCongruent(fields: seq<string>, p1: Params, p2: Params)
    requires forall f :: f in fields ==> (Missing(p1, f) <==> Missing(p2, f))
    ensures MissingErrors(fields, p1) == MissingErrors(fields, p2)
  {
    if fields != [] {
      var init := fields[..|fields| - 1];
      assert forall f :: f in init ==> f in fields;
      MissingErrorsCongruent(init, p1, p2);
    }
  }

  /** Updating one parameter leaves every other field's checks as they were. */
  lemma UpdateElsewhere(params: Params, key: string, v1: Value, v2: Value, f: string)
    requires f != key
    ensures Missing(params[key := v1], f) <==> Missing(params[key := v2], f)
    ensures RangeErrors(params[key := v1], f, 1980, 2026, YearRangeError, YearIntegerError)
         == RangeErrors(params[key := v2], f, 1980, 2026, YearRangeError, YearIntegerError)
    ensures RangeErrors(params[key := v1], f, 0, 500000, MileageRangeError, MileageIntegerError)
         == RangeErrors(params[key := v2], f, 0, 500000, MileageRangeError, MileageIntegerError)
  {
    assert f in params[key := v1] <==> f in params[key := v2];
  }

  /** A present, non-blank condition is never missing, whatever its text. */
  lemma ConditionMissingSame(params: Params, c1: string, c2: string, f: string)
    requires Strip(c1) != [] && Strip(c2) != []
    ensures Missing(params["condition" := Str(c1)], f) <==> Missing(params["condition" := Str(c2)], f)
  {
    if f == "condition" {
      assert params["condition" := Str(c1)][f] == Str(c1);
      assert params["condition" := Str(c2)][f] == Str(c2);
    } else {
      UpdateElsewhere(params, "condition", Str(c1), Str(c2), f);
    }
  }

  /** The value of a present, non-blank condition never changes the outcome, known or not. */
  lemma ConditionNeverBlocks(params: Params, c1: string, c2: string)
    requires Strip(c1) != [] && Strip(c2) != []
    ensures Errors(params["condition" := Str(c1)]) == Errors(params["condition" := Str(c2)])
  {
    var p1, p2 := params["condition" := Str(c1)], params["condition" := Str(c2)];
    forall f | f in RequiredFields
      ensures Missing(p1, f) <==> Missing(p2, f)
    {
      ConditionMissingSame(params, c1, c2, f);
    }
    MissingErrorsCongruent(RequiredFields, p1, p2);
    UpdateElsewhere(params, "condition", Str(c1), Str(c2), "year");
    UpdateElsewhere(params, "condition", Str(c1), Str(c2), "mileage");
  }
}
