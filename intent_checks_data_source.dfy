/** The `forward_intent_checks` data source: list the intent checks of a snapshot, one item per
    check, and count how many passed, failed, erred and timed out. The SDK call is the function
    parameter `list`; the framework's own diagnostic for a list element that cannot be read as a
    string is the parameter `conversionFailure`. */
module IntentChecksDataSource {
  import opened Wrappers
  import opened Framework
  import opened IntentChecks

  datatype IntentChecksModel = IntentChecksModel(
    snapshotId: TfString,
    statuses: TfList,
    priorities: TfList,
    types: TfList,
    passCount: TfInt,
    failCount: TfInt,
    errorCount: TfInt,
    timeoutCount: TfInt,
    checks: seq<IntentCheckItem>)

  datatype IntentCheckItem = IntentCheckItem(
    id: TfString,
    name: TfString,
    status: TfString,
    priority: TfString,
    description: TfString,
    note: TfString,
    enabled: TfBool,
    perfMonitoringEnabled: TfBool,
    numViolations: TfInt,
    creationDateMillis: TfInt,
    executionDateMillis: TfInt,
    executionDuration: TfInt,
    tags: TfList)

  // ---------------------------------------------------------------- filters

  /** The strings of one filter list: nothing for a null or unknown list, the elements of a known
      one, and `None` when one of its elements is null or unknown. */
  function ListValues(list: TfList): (r: Option<seq<string>>)
    ensures !list.Known? ==> r == Some([])
    ensures r.None? <==> list.Known? && exists i :: 0 <= i < |list.value| && !list.value[i].Known?
    ensures list.Known? && r.Some? ==> r.value == ElementStrings(list)
  {
    if list.Known? then KnownElements(list.value) else Some([])
  }

  /** `expandCheckListOptions`: each filter is copied only from a known list. */
  method ExpandCheckListOptions(data: IntentChecksModel, conversionFailure: Diagnostic) returns (r: Diagnosed<CheckListOptions>)
    ensures var st, pr, ty := ListValues(data.statuses), ListValues(data.priorities), ListValues(data.types);
      && (r.Invalid? <==> st.None? || pr.None? || ty.None?)
      && (r.Invalid? ==> r.diag == conversionFailure)
      && (r.Valid? ==> r == Valid(CheckListOptions(ty.value, st.value, pr.value)))
  {
    var options := CheckListOptions([], [], []);
    if data.statuses.Known? {
      var statuses := KnownElements(data.statuses.value);
      if statuses.None? {
        return Invalid(conversionFailure);
      }
      options := options.(statuses := statuses.value);
    }
    if data.priorities.Known? {
      var priorities := KnownElements(data.priorities.value);
      if priorities.None? {
        return Invalid(conversionFailure);
      }
      options := options.(priorities := priorities.value);
    }
    if data.types.Known? {
      var types := KnownElements(data.types.value);
      if types.None? {
        return Invalid(conversionFailure);
      }
      options := options.(types := types.value);
    }
    r := Valid(options);
  }

  // ---------------------------------------------------------------- items and counts

  /** The item a check becomes: its ID always, every empty string and nil pointer as null, no tags
      as a null list. */
  function CheckItem(c: CheckResult): (item: IntentCheckItem)
    ensures item.id == Known(c.id)
    ensures StringOrEmpty(item.status) == c.status && (item.status.Null? <==> c.status == "")
    ensures StringOrEmpty(item.name) == c.name && (item.name.Null? <==> c.name == "")
    ensures StringOrEmpty(item.priority) == c.priority && (item.priority.Null? <==> c.priority == "")
    ensures StringOrEmpty(item.description) == c.description && (item.description.Null? <==> c.description == "")
    ensures StringOrEmpty(item.note) == c.note && (item.note.Null? <==> c.note == "")
    ensures Pointer(item.enabled) == c.enabled && (item.enabled.Null? <==> c.enabled.None?)
    ensures Pointer(item.perfMonitoringEnabled) == c.perfMonitoringEnabled
      && (item.perfMonitoringEnabled.Null? <==> c.perfMonitoringEnabled.None?)
    ensures Pointer(item.numViolations) == c.numViolations && (item.numViolations.Null? <==> c.numViolations.None?)
    ensures Pointer(item.creationDateMillis) == c.creationDateMillis
      && (item.creationDateMillis.Null? <==> c.creationDateMillis.None?)
    ensures Pointer(item.executionDateMillis) == c.executionDateMillis
      && (item.executionDateMillis.Null? <==> c.executionDateMillis.None?)
    ensures Pointer(item.executionDuration) == c.executionDuration
      && (item.executionDuration.Null? <==> c.executionDuration.None?)
    ensures ElementStrings(item.tags) == c.tags && (item.tags.Null? <==> c.tags == [])
  {
    StringListRoundTrip(c.tags);
    IntentCheckItem(Known(c.id), StringOrNull(c.name), StringOrNull(c.status), StringOrNull(c.priority),
                    StringOrNull(c.description), StringOrNull(c.note), PointerOrNull(c.enabled),
                    PointerOrNull(c.perfMonitoringEnabled), PointerOrNull(c.numViolations),
                    PointerOrNull(c.creationDateMillis), PointerOrNull(c.executionDateMillis),
                    PointerOrNull(c.executionDuration), StringList(c.tags))
  }

  /** The number of checks whose status is exactly `status` (case matters). */
  function Count(checks: seq<CheckResult>, status: string): (n: nat)
    ensures n <= |checks|
  {
    if checks == [] then 0
    else Count(checks[..|checks| - 1], status) + (if checks[|checks| - 1].status == status then 1 else 0)
  }

  /** The statuses that are tallied. */
  const Tallied: set<string> := {"PASS", "FAIL", "ERROR", "TIMEOUT"}

  /** A check has one status, so it adds to at most one tally: the four counts together never
      exceed the number of checks, and checks with any other status are in none of them. */
  lemma {:induction false} CountsBounded(checks: seq<CheckResult>)
    ensures Count(checks, "PASS") + Count(checks, "FAIL") + Count(checks, "ERROR") + Count(checks, "TIMEOUT") <= |checks|
    ensures (forall i :: 0 <= i < |checks| ==> checks[i].status !in Tallied) ==>
      Count(checks, "PASS") + Count(checks, "FAIL") + Count(checks, "ERROR") + Count(checks, "TIMEOUT") == 0
  {
    if checks != [] {
      var init := checks[..|checks| - 1];
      CountsBounded(init);
      if forall i :: 0 <= i < |checks| ==> checks[i].status !in Tallied {
        assert forall i :: 0 <= i < |init| ==> init[i].status !in Tallied by {
          forall i | 0 <= i < |init| ensures init[i].status !in Tallied { assert init[i] == checks[i]; }
        }
        assert checks[|checks| - 1].status !in Tallied;
      }
    }
  }

  /** One check with status PASS gives a pass count of 1 and nothing else. */
  lemma OnePassingCheck(c: CheckResult)
    requires c.status == "PASS"
    ensures Count([c], "PASS") == 1
    ensures Count([c], "FAIL") == 0 && Count([c], "ERROR") == 0 && Count([c], "TIMEOUT") == 0
  {
    assert [c][..0] == [];
  }

  /** The tallies of the checks seen so far, as `Read` keeps them in its `stats` map. */
  predicate Tallies(stats: map<string, int>, checks: seq<CheckResult>)
  {
    stats.Keys == Tallied && forall s :: s in stats ==> stats[s] == Count(checks, s)
  }

  /** The loop of `Read`: one item per check, in order, and the `stats` map of the four tallies. */
  method CollectChecks(checks: seq<CheckResult>) returns (items: seq<IntentCheckItem>, stats: map<string, int>)
    ensures |items| == |checks|
    ensures forall j :: 0 <= j < |checks| ==> items[j] == CheckItem(checks[j])
    ensures Tallies(stats, checks)
  {
    stats := map["PASS" := 0, "FAIL" := 0, "ERROR" := 0, "TIMEOUT" := 0];
    items := [];
    for i := 0 to |checks|
      invariant |items| == i
      invariant forall j :: 0 <= j < i ==> items[j] == CheckItem(checks[j])
      invariant Tallies(stats, checks[..i])
    {
      var check := checks[i];
      var tags := ListOfStrings(check.tags);
      var item := IntentCheckItem(Known(check.id), StringOrNull(check.name), StringOrNull(check.status),
                                  StringOrNull(check.priority), StringOrNull(check.description), StringOrNull(check.note),
                                  PointerOrNull(check.enabled), PointerOrNull(check.perfMonitoringEnabled),
                                  PointerOrNull(check.numViolations), PointerOrNull(check.creationDateMillis),
                                  PointerOrNull(check.executionDateMillis), PointerOrNull(check.executionDuration), tags);
      assert checks[..i + 1][..i] == checks[..i];
      if check.status in stats {
        stats := stats[check.status := stats[check.status] + 1];
      }
      items := items + [item];
    }
    assert checks[..|checks|] == checks;
  }

  // ---------------------------------------------------------------- Read

  /** `ListSnapshotChecks(ctx, snapshotID, options)`. */
  type ListChecks = (string, CheckListOptions) -> Result<seq<CheckResult>>

  const MissingSnapshotId: Diagnostic :=
    Diagnostic(Some("snapshot_id"), "Missing Snapshot ID", "The snapshot_id attribute is required to query intent checks.")

  /** `Read`: `called` is the options the checks were listed with, if they were. */
  method Read(data: IntentChecksModel, list: ListChecks, conversionFailure: Diagnostic)
    returns (r: Diagnosed<IntentChecksModel>, called: Option<CheckListOptions>)
    ensures StringOrEmpty(data.snapshotId) == "" ==> r == Invalid(MissingSnapshotId) && called == None
    ensures StringOrEmpty(data.snapshotId) != "" ==>
      var st, pr, ty := ListValues(data.statuses), ListValues(data.priorities), ListValues(data.types);
      && ((st.None? || pr.None? || ty.None?) ==> r == Invalid(conversionFailure) && called == None)
      && (st.Some? && pr.Some? && ty.Some? ==> called == Some(CheckListOptions(ty.value, st.value, pr.value)))
    ensures called.Some? ==> var listed := list(StringOrEmpty(data.snapshotId), called.value);
      && (listed.Err? ==> r == Invalid(Diagnostic(None, "Unable to Retrieve Intent Checks", listed.error.msg)))
      && (listed.Ok? ==> var checks := listed.value;
            && r.Valid?
            && r.value == data.(passCount := Known(Count(checks, "PASS")), failCount := Known(Count(checks, "FAIL")),
                                errorCount := Known(Count(checks, "ERROR")), timeoutCount := Known(Count(checks, "TIMEOUT")),
                                checks := r.value.checks)
            && |r.value.checks| == |checks|
            && forall i :: 0 <= i < |checks| ==> r.value.checks[i] == CheckItem(checks[i]))
  {
    if data.snapshotId.Null? || StringOrEmpty(data.snapshotId) == "" {
      return Invalid(MissingSnapshotId), None;
    }
    var options := ExpandCheckListOptions(data, conversionFailure);
    if options.Invalid? {
      return Invalid(options.diag), None;
    }
    called := Some(options.value);
    var listed := list(StringOrEmpty(data.snapshotId), options.value);
    if listed.Err? {
      return Invalid(Diagnostic(None, "Unable to Retrieve Intent Checks", listed.error.msg)), called;
    }
    var checks := listed.value;
    var items, stats := CollectChecks(checks);
    r := Valid(data.(checks := items, passCount := Known(stats["PASS"]), failCount := Known(stats["FAIL"]),
                     errorCount := Known(stats["ERROR"]), timeoutCount := Known(stats["TIMEOUT"])));
  }
}
