/** The Terraform state of a `forward_intent_check` resource and `setCheckState`, which copies an
    API check result into it. */
module IntentCheckState {
  import opened Wrappers
  import opened Framework
  import opened IntentChecks

  /** The Terraform state of an intent check. */
  class IntentCheckResourceModel {
    var id: TfString
    var snapshotId: TfString
    var persistent: TfBool
    var definitionJson: TfString
    var name: TfString
    var note: TfString
    var enabled: TfBool
    var perfMonitoringEnabled: TfBool
    var priority: TfString
    var tags: TfList
    var status: TfString
    var numViolations: TfInt
    var executionDateMillis: TfInt
    var executionDurationMillis: TfInt

    /** The attributes `setCheckState` writes show `result`: an empty string as null, a nil
        pointer as null, an empty tag slice as a null list. */
    predicate Shows(result: CheckResult)
      reads this
    {
      && status == StringOrNull(result.status)
      && name == StringOrNull(result.name)
      && note == StringOrNull(result.note)
      && enabled == PointerOrNull(result.enabled)
      && perfMonitoringEnabled == PointerOrNull(result.perfMonitoringEnabled)
      && priority == StringOrNull(result.priority)
      && tags == StringList(result.tags)
      && numViolations == PointerOrNull(result.numViolations)
      && executionDateMillis == PointerOrNull(result.executionDateMillis)
      && executionDurationMillis == PointerOrNull(result.executionDuration)
    }

    /** The attributes that come from the configuration, not from the API, are as they were. */
    twostate predicate KeepsInputs()
      reads this
    {
      && id == old(id) && snapshotId == old(snapshotId)
      && persistent == old(persistent) && definitionJson == old(definitionJson)
    }
  }

  /** Nothing the API reports is lost in the state: each reported field reads back as it came. */
  lemma ShownResultReadsBack(model: IntentCheckResourceModel, result: CheckResult)
    requires model.Shows(result)
    ensures StringOrEmpty(model.status) == result.status && StringOrEmpty(model.name) == result.name
    ensures StringOrEmpty(model.note) == result.note && StringOrEmpty(model.priority) == result.priority
    ensures Pointer(model.enabled) == result.enabled && Pointer(model.perfMonitoringEnabled) == result.perfMonitoringEnabled
    ensures Pointer(model.numViolations) == result.numViolations
    ensures Pointer(model.executionDateMillis) == result.executionDateMillis
    ensures Pointer(model.executionDurationMillis) == result.executionDuration
    ensures ElementStrings(model.tags) == result.tags
  {
    StringListRoundTrip(result.tags);
  }

  /** `setCheckState`: a nil result changes nothing. */
  method SetCheckState(model: IntentCheckResourceModel, result: Option<CheckResult>)
    modifies model
    ensures result.None? ==> unchanged(model)
    ensures result.Some? ==> model.Shows(result.value) && model.KeepsInputs()
  {
    if result.Some? {
      var r := result.value;
      var tags := ListOfStrings(r.tags);
      model.status, model.name, model.note, model.enabled, model.perfMonitoringEnabled,
        model.priority, model.tags, model.numViolations, model.executionDateMillis, model.executionDurationMillis :=
        StringOrNull(r.status), StringOrNull(r.name), StringOrNull(r.note), PointerOrNull(r.enabled),
        PointerOrNull(r.perfMonitoringEnabled), StringOrNull(r.priority), tags, PointerOrNull(r.numViolations),
        PointerOrNull(r.executionDateMillis), PointerOrNull(r.executionDuration);
    }
  }
}

/** The `forward_intent_check` resource: a check added to a snapshot. Its Terraform state is an
    object the operations update in place; the SDK calls it makes are function parameters
    (`add`, `get`, `deactivate`), and JSON decoding of the definition is `unmarshal`. */
module IntentCheckResource {
  import opened Wrappers
  import opened Text
  import opened Framework
  import opened Client
  import opened Api
  import opened IntentChecks
  import opened IntentCheckState

  /** `isNotFoundError`: a nil error is not one; otherwise a cancelled context, a message that
      mentions "not found" in any case, or a message naming status 404. */
  predicate IsNotFoundError(err: Option<Error>)
  {
    err.Some? && (err.value.canceled || Contains(Lower(err.value.msg), "not found") || Contains(err.value.msg, "404"))
  }

  lemma DecimalOf404()
    ensures IntToString(404) == "404"
  {
    assert NatToString(4) == "4";
    assert NatToString(40) == NatToString(4) + [DigitChar(0)];
    assert NatToString(404) == NatToString(40) + [DigitChar(4)];
  }

  /** Every SDK accessor that refuses a 404 reports it as a status error naming 404, which counts
      as "not found"; so does any error that wraps a cancelled context. */
  lemma NotFoundErrors<T>(done: Result<Response>, ok: set<int>, failure: string, action: string, trimBody: bool,
                          decode: string -> Result<T>, decodeFailure: string)
    ensures done.Ok? && done.value.status == 404 && 404 !in ok ==>
      && IsNotFoundError(Some(Interpret(done, ok, failure, action, trimBody, decode, decodeFailure).error))
      && IsNotFoundError(Acknowledge(done, ok, failure, action))
    ensures done.Err? && done.error.canceled ==>
      && IsNotFoundError(Some(Interpret(done, ok, failure, action, trimBody, decode, decodeFailure).error))
      && IsNotFoundError(Acknowledge(done, ok, failure, action))
  {
    if done.Ok? && done.value.status == 404 && 404 !in ok {
      DecimalOf404();
      StatusErrorNamesStatus(404, action, done.value.body, trimBody);
      StatusErrorNamesStatus(404, action, done.value.body, false);
    }
  }

  /** `parseCheckDefinition`: a null or unknown definition is refused before any decoding;
      otherwise the result is what `unmarshal` makes of the text (`None` for JSON `null`). */
  function ParseCheckDefinition(definition: TfString, unmarshal: string -> Result<Option<Json>>): (r: Diagnosed<Option<Json>>)
    ensures !definition.Known? ==>
      r == Invalid(Diagnostic(Some("definition_json"), "Missing Definition", "definition_json must be provided."))
    ensures definition.Known? && unmarshal(definition.value).Err? ==>
      r == Invalid(Diagnostic(Some("definition_json"), "Invalid Definition JSON", unmarshal(definition.value).error.msg))
    ensures r.Valid? <==> definition.Known? && unmarshal(definition.value).Ok?
    ensures r.Valid? ==> r.value == unmarshal(definition.value).value
  {
    if !definition.Known? then
      Invalid(Diagnostic(Some("definition_json"), "Missing Definition", "definition_json must be provided."))
    else
      match unmarshal(definition.value)
      case Err(e) => Invalid(Diagnostic(Some("definition_json"), "Invalid Definition JSON", e.msg))
      case Ok(payload) => Valid(payload)
  }

  /** The check `Create` asks for: the planned attributes, with null or unknown ones absent ("" for
      strings, nil for pointers and tags). */
  function CheckRequest(plan: IntentCheckResourceModel, definition: Option<Json>): (body: NewCheckRequest)
    reads plan
    ensures body.definition == definition
    ensures body.enabled == Pointer(plan.enabled) && body.perfMonitoringEnabled == Pointer(plan.perfMonitoringEnabled)
    ensures body.name == StringOrEmpty(plan.name) && body.note == StringOrEmpty(plan.note)
    ensures body.priority == StringOrEmpty(plan.priority)
    ensures body.tags == ElementStrings(plan.tags)
  {
    NewCheckRequest(definition, Pointer(plan.enabled), StringOrEmpty(plan.name), StringOrEmpty(plan.note),
                    Pointer(plan.perfMonitoringEnabled), StringOrEmpty(plan.priority), ElementStrings(plan.tags))
  }

  /** `AddSnapshotCheck(ctx, snapshotID, body, persistent)`. */
  type AddCheck = (string, NewCheckRequest, Option<bool>) -> Result<CheckResult>

  /** `Create`: on success the plan gets the new check's ID and what the API reported. */
  method Create(plan: IntentCheckResourceModel, unmarshal: string -> Result<Option<Json>>, add: AddCheck)
    returns (diag: Option<Diagnostic>, request: Option<NewCheckRequest>)
    modifies plan
    ensures var parsed := ParseCheckDefinition(old(plan.definitionJson), unmarshal);
      && (parsed.Invalid? ==> diag == Some(parsed.diag) && request == None && unchanged(plan))
      && (parsed.Valid? ==> request == Some(old(CheckRequest(plan, parsed.value))))
    ensures request.Some? ==> var result := add(old(StringOrEmpty(plan.snapshotId)), request.value, old(Pointer(plan.persistent)));
      && (result.Err? ==> diag == Some(Diagnostic(None, "Error creating intent check", result.error.msg)) && unchanged(plan))
      && (result.Ok? ==> diag == None && plan.id == Known(result.value.id) && plan.Shows(result.value)
                         && plan.snapshotId == old(plan.snapshotId) && plan.persistent == old(plan.persistent)
                         && plan.definitionJson == old(plan.definitionJson))
  {
    var parsed := ParseCheckDefinition(plan.definitionJson, unmarshal);
    if parsed.Invalid? {
      return Some(parsed.diag), None;
    }
    var tags := StringListValues(plan.tags);
    var body := NewCheckRequest(parsed.value, Pointer(plan.enabled), StringOrEmpty(plan.name), StringOrEmpty(plan.note),
                                Pointer(plan.perfMonitoringEnabled), StringOrEmpty(plan.priority), tags);
    request := Some(body);
    var persistent := Pointer(plan.persistent);
    var result := add(StringOrEmpty(plan.snapshotId), body, persistent);
    if result.Err? {
      return Some(Diagnostic(None, "Error creating intent check", result.error.msg)), request;
    }
    plan.id := Known(result.value.id);
    SetCheckState(plan, Some(result.value));
    diag := None;
  }

  /** `GetSnapshotCheck(ctx, snapshotID, checkID)`. */
  type GetCheck = (string, string) -> Result<CheckResultWithDiagnosis>

  /** `Read`: a check that is gone (any not-found error) is dropped from the state; any other error
      is reported and the state kept. */
  method Read(state: IntentCheckResourceModel, get: GetCheck) returns (removed: bool, diag: Option<Diagnostic>)
    modifies state
    ensures var got := get(old(StringOrEmpty(state.snapshotId)), old(StringOrEmpty(state.id)));
      && (got.Err? && IsNotFoundError(Some(got.error)) ==> removed && diag == None && unchanged(state))
      && (got.Err? && !IsNotFoundError(Some(got.error)) ==>
            !removed && diag == Some(Diagnostic(None, "Error reading intent check", got.error.msg)) && unchanged(state))
      && (got.Ok? ==> !removed && diag == None && state.Shows(got.value.check) && state.KeepsInputs())
  {
    var got := get(StringOrEmpty(state.snapshotId), StringOrEmpty(state.id));
    if got.Err? {
      if IsNotFoundError(Some(got.error)) {
        return true, None;
      }
      return false, Some(Diagnostic(None, "Error reading intent check", got.error.msg));
    }
    SetCheckState(state, Some(got.value.check));
    removed, diag := false, None;
  }

  /** `DeactivateSnapshotCheck(ctx, snapshotID, checkID)`: the error, if any. */
  type DeactivateCheck = (string, string) -> Option<Error>

  /** `Delete`: a not-found error means the check is already gone and is not reported. */
  method Delete(state: IntentCheckResourceModel, deactivate: DeactivateCheck) returns (diag: Option<Diagnostic>)
    ensures var err := deactivate(StringOrEmpty(state.snapshotId), StringOrEmpty(state.id));
      && (diag.None? <==> err.None? || IsNotFoundError(err))
      && (diag.Some? ==> diag.value == Diagnostic(None, "Error deleting intent check", err.value.msg))
  {
    var err := deactivate(StringOrEmpty(state.snapshotId), StringOrEmpty(state.id));
    if err.Some? && !IsNotFoundError(err) {
      return Some(Diagnostic(None, "Error deleting intent check", err.value.msg));
    }
    diag := None;
  }

  /** Deleting a check the server no longer has (it answers 404) succeeds quietly. */
  lemma DeleteOfMissingCheck(state: IntentCheckResourceModel, deactivate: DeactivateCheck, body: string)
    requires deactivate(StringOrEmpty(state.snapshotId), StringOrEmpty(state.id))
             == Acknowledge(Ok(Response(404, body)), {200}, "deactivate check request failed", "deactivating check")
    ensures IsNotFoundError(deactivate(StringOrEmpty(state.snapshotId), StringOrEmpty(state.id)))
  {
    NotFoundErrors<()>(Ok(Response(404, body)), {200}, "deactivate check request failed", "deactivating check", false,
                       _ => Err(Fail("")), "");
  }
}
