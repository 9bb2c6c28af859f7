/** A form rendered from an API endpoint: how its initial values are chosen, how data
    fetched for an existing object is merged in, and how the outcome of a submission
    sets the form's errors, loading flag and callbacks. */
module ApiForm {
  import opened Wrappers
  import opened Strings

  /** A form value, as the text the form holds. */
  type Value = string

  /** A field the caller declares: its name, its own value and default, and whether it
      is hidden. */
  datatype FieldSpec = FieldSpec(name: string, value: Option<Value>, default: Option<Value>, hidden: bool)

  /** The server's definition of a field, the fallback for the caller's. */
  datatype Definition = Definition(value: Option<Value>, default: Option<Value>)

  /** The caller's fields come from an object, so their names are distinct. */
  predicate DistinctNames(fields: seq<FieldSpec>) {
    forall i, j :: 0 <= i < j < |fields| ==> fields[i].name != fields[j].name
  }

  /** The server definition of a field, or an empty one. */
  function DefinitionOf(defs: map<string, Definition>, name: string): Definition {
    if name in defs then defs[name] else Definition(None, None)
  }

  /** The initial value of a field: `field.value ?? field.default ?? definition.value
      ?? definition.default`, or none. */
  function InitialValue(field: FieldSpec, defs: map<string, Definition>): (v: Option<Value>)
    ensures field.value.Some? ==> v == field.value
    ensures field.value.None? && field.default.Some? ==> v == field.default
    ensures field.value.None? && field.default.None? ==>
      v == DefinitionOf(defs, field.name).value.OrElse(DefinitionOf(defs, field.name).default)
    ensures v.None? <==> (field.value.None? && field.default.None? &&
      DefinitionOf(defs, field.name).value.None? && DefinitionOf(defs, field.name).default.None?)
  {
    var d := DefinitionOf(defs, field.name);
    field.value.OrElse(field.default).OrElse(d.value).OrElse(d.default)
  }

  /** The form values after each field with an initial value has been set to it; a
      field without one keeps whatever the form held. */
  function WithInitialValues(values: map<string, Value>, fields: seq<FieldSpec>,
                             defs: map<string, Definition>): map<string, Value>
    decreases |fields|
  {
    if fields == [] then values
    else
      var last := fields[|fields| - 1];
      var before := WithInitialValues(values, fields[..|fields| - 1], defs);
      match InitialValue(last, defs)
      case Some(v) => before[last.name := v]
      case None => before
  }

  /** The form values after fetched data has been merged: each declared field that
      appears in the response takes the response's value. */
  function WithResponse(values: map<string, Value>, fields: seq<FieldSpec>,
                        response: map<string, Value>): map<string, Value>
    decreases |fields|
  {
    if fields == [] then values
    else
      var last := fields[|fields| - 1];
      var before := WithResponse(values, fields[..|fields| - 1], response);
      if last.name in response then before[last.name := response[last.name]] else before
  }

  /** Each declared field with an initial value holds it; every other key keeps its
      old value or stays unset. */
  lemma {:induction false} InitialValuesSpec(values: map<string, Value>, fields: seq<FieldSpec>,
                                             defs: map<string, Definition>)
    requires DistinctNames(fields)
    ensures forall i :: 0 <= i < |fields| && InitialValue(fields[i], defs).Some? ==>
      fields[i].name in WithInitialValues(values, fields, defs) &&
      WithInitialValues(values, fields, defs)[fields[i].name] == InitialValue(fields[i], defs).value
    ensures forall k :: (forall i :: 0 <= i < |fields| ==> fields[i].name != k || InitialValue(fields[i], defs).None?) ==>
      (k in WithInitialValues(values, fields, defs) <==> k in values) &&
      (k in values ==> WithInitialValues(values, fields, defs)[k] == values[k])
    decreases |fields|
  {
    if fields != [] {
      InitialValuesSpec(values, fields[..|fields| - 1], defs);
    }
  }

  /** Only declared fields present in the response change; every other key of the
      response is ignored. */
  lemma {:induction false} ResponseMergeSpec(values: map<string, Value>, fields: seq<FieldSpec>,
                                             response: map<string, Value>)
    requires DistinctNames(fields)
    ensures forall i :: 0 <= i < |fields| && fields[i].name in response ==>
      fields[i].name in WithResponse(values, fields, response) &&
      WithResponse(values, fields, response)[fields[i].name] == response[fields[i].name]
    ensures forall k :: (forall i :: 0 <= i < |fields| ==> fields[i].name != k || k !in response) ==>
      (k in WithResponse(values, fields, response) <==> k in values) &&
      (k in values ==> WithResponse(values, fields, response)[k] == values[k])
    decreases |fields|
  {
    if fields != [] {
      ResponseMergeSpec(values, fields[..|fields| - 1], response);
    }
  }

  /** How a submission ended: a response the request resolved with, an error carrying
      a response, or an error without one. */
  datatype SubmitOutcome =
    | Resolved(status: int, data: map<string, Value>)
    | RejectedWithResponse(status: int, errorData: map<string, seq<string>>)
    | RejectedWithoutResponse

  /** The three ways the form treats an outcome. */
  datatype Classification = Success | FieldErrors | Failure(reported: int)

  /** 200, 201 and 204 are success; a 400 error carries field errors; anything else is
      a failure, reported with its status (0 when there is no response). */
  function Classify(outcome: SubmitOutcome): (c: Classification)
    ensures c.Success? <==> outcome.Resolved? && outcome.status in {200, 201, 204}
    ensures c.FieldErrors? <==> outcome.RejectedWithResponse? && outcome.status == 400
    ensures c.Failure? && outcome.RejectedWithoutResponse? ==> c.reported == 0
    ensures c.Failure? && !outcome.RejectedWithoutResponse? ==> c.reported == outcome.status
  {
    match outcome
    case Resolved(status, _) =>
      if status == 200 || status == 201 || status == 204 then Success else Failure(status)
    case RejectedWithResponse(status, _) =>
      if status == 400 then FieldErrors else Failure(status)
    case RejectedWithoutResponse => Failure(0)
  }

  /** The visible effects of a submission, in the order they happen. */
  datatype Event =
    | FormSuccessCalled(data: map<string, Value>)
    | SuccessNotice(message: string)
    | InvalidResponse(status: int)
    | FormErrorCalled

  /** The request a submission sends. */
  datatype Request = Request(verb: string, url: string, data: map<string, Value>)

  /** The names of the fields that are rendered: the declared fields that are not hidden. */
  function RenderedFields(fields: seq<FieldSpec>): (names: seq<string>)
    ensures forall i :: 0 <= i < |fields| && !fields[i].hidden ==> fields[i].name in names
    ensures forall n :: n in names ==> exists i :: 0 <= i < |fields| && !fields[i].hidden && fields[i].name == n
    decreases |fields|
  {
    if fields == [] then []
    else
      var rest := RenderedFields(fields[1..]);
      assert forall n :: n in rest ==> exists i :: 0 <= i < |fields| && !fields[i].hidden && fields[i].name == n by {
        forall n | n in rest
          ensures exists i :: 0 <= i < |fields| && !fields[i].hidden && fields[i].name == n
        {
          var j :| 0 <= j < |fields[1..]| && !fields[1..][j].hidden && fields[1..][j].name == n;
          assert fields[j + 1] == fields[1..][j];
        }
      }
      if fields[0].hidden then rest else [fields[0].name] + rest
  }

  /** The fields render in declaration order, one entry per field that is not hidden:
      rendering a concatenation renders each part in turn, and a single field renders
      as its name unless it is hidden. */
  lemma {:induction false} RenderedFieldsAppend(a: seq<FieldSpec>, b: seq<FieldSpec>)
    ensures RenderedFields(a + b) == RenderedFields(a) + RenderedFields(b)
    ensures |a| == 1 ==> RenderedFields(a) == (if a[0].hidden then [] else [a[0].name])
    decreases |a|
  {
    if a != [] {
      assert (a + b)[0] == a[0] && (a + b)[1..] == a[1..] + b;
      RenderedFieldsAppend(a[1..], b);
      if |a| == 1 {
        assert a[1..] == [];
      }
    } else {
      assert a + b == b;
    }
  }

  /** The state of one form. */
  class ApiFormState {
    const fields: seq<FieldSpec>
    const definitions: map<string, Definition>
    const url: string
    const httpMethod: Option<string>
    const successMessage: Option<string>
    const hasOnFormSuccess: bool
    const hasOnFormError: bool
    var values: map<string, Value>
    var errors: map<string, seq<string>>
    var nonFieldErrors: seq<string>
    var isLoading: bool
    var events: seq<Event>

    constructor (fields: seq<FieldSpec>, definitions: map<string, Definition>, url: string,
                 httpMethod: Option<string>, successMessage: Option<string>,
                 hasOnFormSuccess: bool, hasOnFormError: bool)
      ensures this.fields == fields && this.definitions == definitions && this.url == url
      ensures this.httpMethod == httpMethod && this.successMessage == successMessage
      ensures this.hasOnFormSuccess == hasOnFormSuccess && this.hasOnFormError == hasOnFormError
      ensures values == map[] && errors == map[] && nonFieldErrors == [] && events == []
      ensures isLoading
    {
      this.fields := fields;
      this.definitions := definitions;
      this.url := url;
      this.httpMethod := httpMethod;
      this.successMessage := successMessage;
      this.hasOnFormSuccess := hasOnFormSuccess;
      this.hasOnFormError := hasOnFormError;
      values := map[];
      errors := map[];
      nonFieldErrors := [];
      isLoading := true;
      events := [];
    }

    /** On first render each field is set to its initial value, if it has one. */
    method InitialiseValues()
      modifies this
      ensures values == WithInitialValues(old(values), fields, definitions)
      ensures errors == old(errors) && nonFieldErrors == old(nonFieldErrors)
      ensures isLoading == old(isLoading) && events == old(events)
    {
      ghost var start := values;
      for i := 0 to |fields|
        invariant values == WithInitialValues(start, fields[..i], definitions)
        invariant errors == old(errors) && nonFieldErrors == old(nonFieldErrors)
        invariant isLoading == old(isLoading) && events == old(events)
      {
        assert fields[..i + 1][..i] == fields[..i];
        var v := InitialValue(fields[i], definitions);
        if v.Some? {
          values := values[fields[i].name := v.value];
        }
      }
      assert fields[..|fields|] == fields;
    }

    /** The fetched data of an existing object sets the declared fields it contains. */
    method ApplyInitialData(response: map<string, Value>)
      modifies this
      ensures values == WithResponse(old(values), fields, response)
      ensures errors == old(errors) && nonFieldErrors == old(nonFieldErrors)
      ensures isLoading == old(isLoading) && events == old(events)
    {
      ghost var start := values;
      for i := 0 to |fields|
        invariant values == WithResponse(start, fields[..i], response)
        invariant errors == old(errors) && nonFieldErrors == old(nonFieldErrors)
        invariant isLoading == old(isLoading) && events == old(events)
      {
        assert fields[..i + 1][..i] == fields[..i];
        if fields[i].name in response {
          values := values[fields[i].name := response[fields[i].name]];
        }
      }
      assert fields[..|fields|] == fields;
    }

    /** The request a submission sends: all form values, hidden fields included, to
        the form's URL, with the method in lower case ('get' when none). */
    function SubmitRequest(): (request: Request)
      reads this
      ensures request.data == values && request.url == url
      ensures request.verb == (if httpMethod.Some? then Lower(httpMethod.value) else "get")
    {
      Request(if httpMethod.Some? then Lower(httpMethod.value) else "get", url, values)
    }

    /** `submitForm`: loading is set and `SubmitRequest` is sent. */
    method SubmitForm() returns (request: Request)
      modifies this
      ensures isLoading
      ensures request == SubmitRequest()
      ensures values == old(values) && errors == old(errors) && nonFieldErrors == old(nonFieldErrors)
      ensures events == old(events)
    {
      isLoading := true;
      request := SubmitRequest();
    }

    /** The effect of the outcome of a submission. */
    method HandleOutcome(outcome: SubmitOutcome)
      modifies this
      ensures values == old(values)
      ensures Classify(outcome).Success? ==>
        events == old(events)
          + (if hasOnFormSuccess then [FormSuccessCalled(outcome.data)] else [])
          + (if successMessage.Some? && successMessage.value != "" then [SuccessNotice(successMessage.value)] else [])
      ensures Classify(outcome).FieldErrors? ==>
        errors == outcome.errorData && !isLoading && events == old(events) &&
        nonFieldErrors == (if "non_field_errors" in outcome.errorData then outcome.errorData["non_field_errors"] else [])
      ensures Classify(outcome).Failure? ==>
        events == old(events) + [InvalidResponse(Classify(outcome).reported)]
          + (if hasOnFormError then [FormErrorCalled] else [])
      ensures !Classify(outcome).FieldErrors? ==>
        errors == old(errors) && nonFieldErrors == old(nonFieldErrors) && isLoading == old(isLoading)
    {
      match Classify(outcome) {
        case Success =>
          if hasOnFormSuccess {
            events := events + [FormSuccessCalled(outcome.data)];
          }
          if successMessage.Some? && successMessage.value != "" {
            events := events + [SuccessNotice(successMessage.value)];
          }
        case FieldErrors =>
          errors := outcome.errorData;
          nonFieldErrors := if "non_field_errors" in outcome.errorData then outcome.errorData["non_field_errors"] else [];
          isLoading := false;
        case Failure(status) =>
          events := events + [InvalidResponse(status)];
          if hasOnFormError {
            events := events + [FormErrorCalled];
          }
      }
    }

    /** Loading follows the two queries whenever either changes status. */
    method SyncLoading(submitFetching: bool, initialFetching: bool)
      modifies this
      ensures isLoading == (submitFetching || initialFetching)
      ensures values == old(values) && errors == old(errors) && nonFieldErrors == old(nonFieldErrors)
      ensures events == old(events)
    {
      isLoading := submitFetching || initialFetching;
    }

    /** The submit button is disabled while loading. */
    function SubmitDisabled(): (disabled: bool)
      reads this
      ensures disabled <==> isLoading
    {
      isLoading
    }

    /** The error banner shows when there are field errors or non-field errors. */
    function ShowErrorBanner(): (shown: bool)
      reads this
      ensures shown <==> errors != map[] || nonFieldErrors != []
    {
      |errors| > 0 || |nonFieldErrors| > 0
    }
  }

  /** A hidden field of a form is not rendered, yet the request its submission sends
      carries the field's value. */
  lemma HiddenFieldsSubmitted(form: ApiFormState, i: nat)
    requires DistinctNames(form.fields) && i < |form.fields| && form.fields[i].hidden
    requires form.fields[i].name in form.values
    ensures form.fields[i].name !in RenderedFields(form.fields)
    ensures form.fields[i].name in form.SubmitRequest().data
    ensures form.SubmitRequest().data[form.fields[i].name] == form.values[form.fields[i].name]
  {
    var fields := form.fields;
    forall j | 0 <= j < |fields| && !fields[j].hidden
      ensures fields[j].name != fields[i].name
    {
      assert j != i;
    }
  }
}
