/** The `forward_nqe_query_definition` resource: a reference to a query of the NQE library, found
    by its path and repository. Nothing is created or deleted on the server; the query list the
    resource searches comes from the SDK call `list` (`ListNQEQueries(ctx, "")`). */
module NqeQueryResource {
  import opened Wrappers
  import opened Text
  import opened Framework
  import opened Nqe

  datatype NqeQueryResourceModel = NqeQueryResourceModel(
    id: TfString,
    path: TfString,
    repository: TfString,
    intent: TfString,
    queryId: TfString)

  /** A library entry is the one asked for: the path is equal exactly, the repository up to case. */
  predicate Matches(q: NqeQuery, queryPath: string, repository: string)
  {
    q.path == queryPath && EqualFold(q.repository, repository)
  }

  /** The first matching entry of the list, if there is one. */
  function FirstMatch(queries: seq<NqeQuery>, queryPath: string, repository: string): (r: Option<NqeQuery>)
    ensures r.None? <==> forall i :: 0 <= i < |queries| ==> !Matches(queries[i], queryPath, repository)
    ensures r.Some? ==> exists i :: 0 <= i < |queries| && queries[i] == r.value && Matches(queries[i], queryPath, repository) &&
                                    forall j :: 0 <= j < i ==> !Matches(queries[j], queryPath, repository)
    decreases |queries|
  {
    if queries == [] then None
    else if Matches(queries[0], queryPath, repository) then
      Some(queries[0])
    else
      var rest := FirstMatch(queries[1..], queryPath, repository);
      assert forall i :: 1 <= i < |queries| ==> queries[i] == queries[1..][i - 1];
      if rest.Some? then
        assert exists i :: 0 <= i < |queries| && queries[i] == rest.value && Matches(queries[i], queryPath, repository) &&
                           forall j :: 0 <= j < i ==> !Matches(queries[j], queryPath, repository) by {
          var i' :| 0 <= i' < |queries[1..]| && queries[1..][i'] == rest.value && Matches(queries[1..][i'], queryPath, repository) &&
                    forall j :: 0 <= j < i' ==> !Matches(queries[1..][j], queryPath, repository);
          assert queries[i' + 1] == rest.value;
          assert forall j :: 1 <= j < i' + 1 ==> !Matches(queries[j], queryPath, repository);
        }
        rest
      else rest
  }

  const MissingPath: Diagnostic := Diagnostic(Some("path"), "Missing Path", "path must be provided.")

  /** `lookupQuery`: `listed` says whether the library was asked for its queries. */
  method LookupQuery(list: () -> Result<seq<NqeQuery>>, queryPath: string, repository: string)
    returns (r: Diagnosed<Option<NqeQuery>>, listed: bool)
    ensures AllSpace(queryPath) ==> r == Invalid(MissingPath) && !listed
    ensures !AllSpace(queryPath) ==>
      && listed
      && (list().Err? ==> r == Invalid(Diagnostic(None, "Error listing NQE queries", list().error.msg)))
      && (list().Ok? ==> r == Valid(FirstMatch(list().value, queryPath, repository)))
  {
    if TrimSpace(queryPath) == "" {
      return Invalid(MissingPath), false;
    }
    listed := true;
    var queries := list();
    if queries.Err? {
      return Invalid(Diagnostic(None, "Error listing NQE queries", queries.error.msg)), listed;
    }
    var found := FindQuery(queries.value, queryPath, repository);
    r := Valid(found);
  }

  /** The search loop of `lookupQuery`, which returns at the first match. */
  method FindQuery(entries: seq<NqeQuery>, queryPath: string, repository: string) returns (found: Option<NqeQuery>)
    ensures found == FirstMatch(entries, queryPath, repository)
  {
    for i := 0 to |entries|
      invariant forall j :: 0 <= j < i ==> !Matches(entries[j], queryPath, repository)
    {
      var q := entries[i];
      if q.path == queryPath && EqualFold(q.repository, repository) {
        FirstMatchIsAt(entries, i, queryPath, repository);
        return Some(q);
      }
    }
    found := None;
  }

  /** The first match is at the first index that matches. */
  lemma FirstMatchIsAt(queries: seq<NqeQuery>, i: nat, queryPath: string, repository: string)
    requires i < |queries| && Matches(queries[i], queryPath, repository)
    requires forall j :: 0 <= j < i ==> !Matches(queries[j], queryPath, repository)
    ensures FirstMatch(queries, queryPath, repository) == Some(queries[i])
  {
    var r := FirstMatch(queries, queryPath, repository);
    var k :| 0 <= k < |queries| && queries[k] == r.value && Matches(queries[k], queryPath, repository) &&
             forall m :: 0 <= m < k ==> !Matches(queries[m], queryPath, repository);
    assert k == i;
  }

  /** The attributes a found query sets: its ID (also the resource's), its intent (null when
      empty) and the repository as the server spells it. Path stays as planned. */
  function WithQuery(m: NqeQueryResourceModel, q: NqeQuery): (r: NqeQueryResourceModel)
    ensures r.id == r.queryId == Known(q.queryId)
    ensures r.repository == Known(q.repository) && r.path == m.path
    ensures StringOrEmpty(r.intent) == q.intent && (r.intent.Null? <==> q.intent == "")
  {
    m.(queryId := Known(q.queryId), intent := StringOrNull(q.intent), repository := Known(q.repository), id := Known(q.queryId))
  }

  const QueryNotFound: Diagnostic :=
    Diagnostic(None, "NQE query not found",
               "The specified NQE query does not exist in the Forward library. New query creation is not currently supported via API; create the query in Forward Enterprise and re-run Terraform.")

  /** `Create`: a query that is not in the library is an error; creating one is not supported. */
  method Create(plan: NqeQueryResourceModel, list: () -> Result<seq<NqeQuery>>)
    returns (r: Diagnosed<NqeQueryResourceModel>)
    ensures var queryPath := StringOrEmpty(plan.path);
      && (AllSpace(queryPath) ==> r == Invalid(MissingPath))
      && (!AllSpace(queryPath) && list().Err? ==> r == Invalid(Diagnostic(None, "Error listing NQE queries", list().error.msg)))
      && (!AllSpace(queryPath) && list().Ok? ==>
            var found := FirstMatch(list().value, queryPath, StringOrEmpty(plan.repository));
            && (found.None? ==> r == Invalid(QueryNotFound))
            && (found.Some? ==> r == Valid(WithQuery(plan, found.value))))
  {
    var query, _ := LookupQuery(list, StringOrEmpty(plan.path), StringOrEmpty(plan.repository));
    if query.Invalid? {
      return Invalid(query.diag);
    }
    if query.value.None? {
      return Invalid(QueryNotFound);
    }
    var q := query.value.value;
    var next := plan.(queryId := Known(q.queryId));
    next := next.(intent := StringOrNull(q.intent));
    next := next.(repository := Known(q.repository));
    next := next.(id := next.queryId);
    r := Valid(next);
  }

  /** `Read`: a query no longer in the library removes the resource (`Valid(None)`). */
  method Read(state: NqeQueryResourceModel, list: () -> Result<seq<NqeQuery>>)
    returns (r: Diagnosed<Option<NqeQueryResourceModel>>)
    ensures var queryPath := StringOrEmpty(state.path);
      && (AllSpace(queryPath) ==> r == Invalid(MissingPath))
      && (!AllSpace(queryPath) && list().Err? ==> r == Invalid(Diagnostic(None, "Error listing NQE queries", list().error.msg)))
      && (!AllSpace(queryPath) && list().Ok? ==>
            var found := FirstMatch(list().value, queryPath, StringOrEmpty(state.repository));
            && (found.None? ==> r == Valid(None))
            && (found.Some? ==> r == Valid(Some(WithQuery(state, found.value)))))
  {
    var query, _ := LookupQuery(list, StringOrEmpty(state.path), StringOrEmpty(state.repository));
    if query.Invalid? {
      return Invalid(query.diag);
    }
    if query.value.None? {
      return Valid(None);
    }
    var q := query.value.value;
    var next := state.(queryId := Known(q.queryId));
    next := next.(intent := StringOrNull(q.intent));
    next := next.(repository := Known(q.repository));
    next := next.(id := next.queryId);
    r := Valid(Some(next));
  }

  /** Reading back what `Create` stored, from the same library, finds the same query again: the
      stored repository is the server's spelling, which matches the same entries as the planned one. */
  lemma ReadAfterCreateFindsSameQuery(plan: NqeQueryResourceModel, queries: seq<NqeQuery>)
    requires FirstMatch(queries, StringOrEmpty(plan.path), StringOrEmpty(plan.repository)).Some?
    ensures var q := FirstMatch(queries, StringOrEmpty(plan.path), StringOrEmpty(plan.repository)).value;
      var stored := WithQuery(plan, q);
      FirstMatch(queries, StringOrEmpty(stored.path), StringOrEmpty(stored.repository)) == Some(q)
  {
    var queryPath, repository := StringOrEmpty(plan.path), StringOrEmpty(plan.repository);
    var q := FirstMatch(queries, queryPath, repository).value;
    var k :| 0 <= k < |queries| && queries[k] == q && Matches(queries[k], queryPath, repository) &&
             forall m :: 0 <= m < k ==> !Matches(queries[m], queryPath, repository);
    assert forall m :: 0 <= m < k ==> !Matches(queries[m], queryPath, q.repository);
    FirstMatchIsAt(queries, k, queryPath, q.repository);
  }

  /** `Delete`: the query stays in the library; no API call is made and nothing is reported. */
  method Delete(state: NqeQueryResourceModel) returns (diag: Option<Diagnostic>, listed: bool)
    ensures diag.None? && !listed
  {
    diag, listed := None, false;
  }
}
