/**
 * The generic form composable (`useForm`): form data, per-field error strings,
 * the validity flag the form recomputes, and the error and success banners.
 *
 * The validator is a parameter of the form, as in the source. A data value is
 * `undefined`, a string, or any other value; an error entry is a string or
 * `undefined` (which `validateField` can store, see `FieldError`).
 */
module Form {
  import opened Base
  import Validation

  datatype FieldValue = Undefined | Text(s: string) | Other

  /** A value that counts as filled in: neither `undefined` nor ''. */
  predicate Filled(v: FieldValue)
  {
    v != Undefined && v != Text("")
  }

  /** `Object.keys(data).every(...)`: every field is filled in. */
  predicate HasAllFields(data: map<string, FieldValue>)
  {
    forall k :: k in data ==> Filled(data[k])
  }

  /** `Object.values(errors).some(error => error !== '')` */
  predicate HasErrors(errors: map<string, Option<string>>)
  {
    exists k :: k in errors && errors[k] != Some("")
  }

  /** The validity `updateFormValidity` stores. */
  predicate FormValid(data: map<string, FieldValue>, errors: map<string, Option<string>>)
  {
    HasAllFields(data) && !HasErrors(errors)
  }

  /** Whether a general error names the field, both lower-cased. */
  predicate Names(error: string, field: string)
  {
    Contains(Lower(error), Lower(field))
  }

  /** `errors.filter(names field)[0]`: the first general error that names the field. */
  function FirstNaming(errors: seq<string>, field: string): (r: Option<string>)
    ensures r.None? <==> forall i :: 0 <= i < |errors| ==> !Names(errors[i], field)
    ensures r.Some? ==> exists i :: 0 <= i < |errors| && errors[i] == r.value
                                    && Names(errors[i], field)
                                    && forall j :: 0 <= j < i ==> !Names(errors[j], field)
  {
    if errors == [] then None
    else if Names(errors[0], field) then Some(errors[0])
    else
      var rest := FirstNaming(errors[1..], field);
      if rest.Some? then
        assert forall i :: 0 < i < |errors| ==> errors[i] == errors[1..][i - 1];
        rest
      else rest
  }

  /**
   * The value `validateField(field)` leaves in `errors[field]` for the validator's
   * result: '' when the data is valid; otherwise the first field error for it (an
   * empty list is truthy, and its `[0]` is `undefined`), or failing that the first
   * general error naming it, or ''.
   */
  function FieldError(result: Validation.ValidationResult, field: string): Option<string>
  {
    if result.isValid then Some("")
    else if field in result.fieldErrors then
      if |result.fieldErrors[field]| > 0 then Some(result.fieldErrors[field][0]) else None
    else
      var general := FirstNaming(result.errors, field);
      if general.Some? then general else Some("")
  }

  /** A valid result always clears the field's error. */
  lemma ValidResultClearsError(result: Validation.ValidationResult, field: string)
    requires result.isValid
    ensures FieldError(result, field) == Some("")
  {
  }

  /** A field-specific error wins over a general error that names the field. */
  lemma FieldErrorsComeFirst(result: Validation.ValidationResult, field: string)
    requires !result.isValid && field in result.fieldErrors && |result.fieldErrors[field]| > 0
    ensures FieldError(result, field) == Some(result.fieldErrors[field][0])
  {
  }

  /**
   * Without a field-specific entry the error is a general error that names the
   * field, and the earliest one; it stays '' when none does.
   */
  lemma GeneralErrorFallback(result: Validation.ValidationResult, field: string)
    requires !result.isValid && field !in result.fieldErrors
    ensures FieldError(result, field) == Some("") ==>
              (forall i :: 0 <= i < |result.errors| ==> !Names(result.errors[i], field)) || "" in result.errors
    ensures FieldError(result, field) != Some("") ==>
              exists i :: 0 <= i < |result.errors| && Some(result.errors[i]) == FieldError(result, field) && Names(result.errors[i], field)
  {
  }

  /** When every stored error is '', validity is exactly "every field filled in". */
  lemma ClearedErrorsDoNotBlock(data: map<string, FieldValue>, errors: map<string, Option<string>>)
    requires forall k :: k in errors ==> errors[k] == Some("")
    ensures FormValid(data, errors) <==> HasAllFields(data)
  {
  }

  /** A stored `undefined` error keeps the form invalid, as any non-empty message does. */
  lemma UndefinedErrorBlocks(data: map<string, FieldValue>, errors: map<string, Option<string>>, field: string)
    requires field in errors && errors[field].None?
    ensures !FormValid(data, errors)
  {
  }

  class FormModel {
    const initialData: map<string, FieldValue>
    const validator: map<string, FieldValue> -> Validation.ValidationResult
    var data: map<string, FieldValue>
    var errors: map<string, Option<string>>
    var isValid: bool
    var isLoading: bool
    var errorMessage: string
    var successMessage: string

    constructor(initialData: map<string, FieldValue>, validator: map<string, FieldValue> -> Validation.ValidationResult)
      ensures this.initialData == initialData && this.validator == validator
      ensures data == initialData && errors == map[] && !isValid && !isLoading
      ensures errorMessage == "" && successMessage == ""
    {
      this.initialData := initialData;
      this.validator := validator;
      data := initialData;
      errors := map[];
      isValid := false;
      isLoading := false;
      errorMessage := "";
      successMessage := "";
    }

    /** `updateFormValidity()` */
    method UpdateFormValidity()
      modifies this
      ensures isValid == FormValid(data, errors)
      ensures data == old(data) && errors == old(errors) && isLoading == old(isLoading)
      ensures errorMessage == old(errorMessage) && successMessage == old(successMessage)
    {
      var hasErrors := exists k :: k in errors && errors[k] != Some("");
      var hasAllRequiredFields := forall k :: k in data ==> data[k] != Undefined && data[k] != Text("");
      isValid := hasAllRequiredFields && !hasErrors;
    }

    /**
     * `validateField(field)`: the field's error is cleared, then set from the
     * validator's verdict on the current data; no other error entry changes, and
     * the validity is recomputed.
     */
    method ValidateField(fieldName: string)
      modifies this
      ensures errors == old(errors)[fieldName := FieldError(validator(old(data)), fieldName)]
      ensures isValid == FormValid(data, errors)
      ensures data == old(data) && isLoading == old(isLoading)
      ensures errorMessage == old(errorMessage) && successMessage == old(successMessage)
    {
      errors := errors[fieldName := Some("")];
      var result := validator(data);
      if !result.isValid {
        if fieldName in result.fieldErrors {
          var list := result.fieldErrors[fieldName];
          errors := errors[fieldName := if |list| > 0 then Some(list[0]) else None];
        } else {
          var fieldErrors := FirstNaming(result.errors, fieldName);
          if fieldErrors.Some? {
            errors := errors[fieldName := fieldErrors];
          }
        }
      }
      UpdateFormValidity();
    }

    /** A change to the data, which the deep watcher follows with `updateFormValidity`. */
    method SetField(key: string, value: FieldValue)
      modifies this
      ensures data == old(data)[key := value] && errors == old(errors)
      ensures isValid == FormValid(data, errors)
      ensures isLoading == old(isLoading) && errorMessage == old(errorMessage) && successMessage == old(successMessage)
    {
      data := data[key := value];
      UpdateFormValidity();
    }

    /** `resetForm()` */
    method ResetForm()
      modifies this
      ensures data == initialData && errors == map[] && !isValid
      ensures errorMessage == "" && successMessage == "" && isLoading == old(isLoading)
    {
      data := initialData;
      errors := map[];
      errorMessage := "";
      successMessage := "";
      isValid := false;
    }

    /** `setLoading(loading)` */
    method SetLoading(loading: bool)
      modifies this
      ensures isLoading == loading
      ensures data == old(data) && errors == old(errors) && isValid == old(isValid)
      ensures errorMessage == old(errorMessage) && successMessage == old(successMessage)
    {
      isLoading := loading;
    }

    /** `setError(message)`: the success banner is cleared. */
    method SetError(message: string)
      modifies this
      ensures errorMessage == message && successMessage == ""
      ensures data == old(data) && errors == old(errors) && isValid == old(isValid) && isLoading == old(isLoading)
    {
      errorMessage := message;
      successMessage := "";
    }

    /** `setSuccess(message)`: the error banner is cleared. */
    method SetSuccess(message: string)
      modifies this
      ensures successMessage == message && errorMessage == ""
      ensures data == old(data) && errors == old(errors) && isValid == old(isValid) && isLoading == old(isLoading)
    {
      successMessage := message;
      errorMessage := "";
    }

    /** `clearError()`: only the error banner. */
    method ClearError()
      modifies this
      ensures errorMessage == "" && successMessage == old(successMessage)
      ensures data == old(data) && errors == old(errors) && isValid == old(isValid) && isLoading == old(isLoading)
    {
      errorMessage := "";
    }

    /** `clearSuccess()`: only the success banner. */
    method ClearSuccess()
      modifies this
      ensures successMessage == "" && errorMessage == old(errorMessage)
      ensures data == old(data) && errors == old(errors) && isValid == old(isValid) && isLoading == old(isLoading)
    {
      successMessage := "";
    }
  }

  /**
   * After a reset the form is invalid until something recomputes it, even when the
   * initial data is complete.
   */
  method ResetThenValidity(f: FormModel) returns (before: bool, after: bool)
    modifies f
    ensures !before
    ensures after <==> HasAllFields(f.initialData)
  {
    f.ResetForm();
    before := f.isValid;
    f.UpdateFormValidity();
    after := f.isValid;
  }
}
