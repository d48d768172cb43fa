/** The `forward_snapshots` data source: list the snapshots of a network, one item per snapshot.
    The SDK call is the function parameter `list`. */
module SnapshotsDataSource {
  import opened Wrappers
  import opened Framework
  import opened Snapshots

  datatype SnapshotItem = SnapshotItem(
    id: TfString,
    state: TfString,
    processingTrigger: TfString,
    parentSnapshotId: TfString,
    note: TfString,
    isDraft: TfBool,
    creationMillis: TfInt,
    processedMillis: TfInt,
    restoredMillis: TfInt,
    favoritedBy: TfString,
    favoritedByUserId: TfString,
    favoritedMillis: TfInt)

  datatype SnapshotsModel = SnapshotsModel(
    networkId: TfString,
    limit: TfInt,
    includeArchived: TfBool,
    snapshots: seq<SnapshotItem>)

  /** The item a snapshot becomes: its ID always, every empty string and nil pointer as null. */
  function ItemOf(s: Snapshot): (item: SnapshotItem)
    ensures item.id == Known(s.id)
    ensures item.state.Null? <==> s.state == ""
    ensures item.processingTrigger.Null? <==> s.processingTrigger == ""
    ensures item.parentSnapshotId.Null? <==> s.parentSnapshotId == ""
    ensures item.note.Null? <==> s.note == ""
    ensures item.favoritedBy.Null? <==> s.favoritedBy == ""
    ensures item.favoritedByUserId.Null? <==> s.favoritedByUserId == ""
    ensures item.isDraft.Null? <==> s.isDraft.None?
    ensures item.creationMillis.Null? <==> s.creationDateMillis.None?
    ensures item.processedMillis.Null? <==> s.processedAtMillis.None?
    ensures item.restoredMillis.Null? <==> s.restoredAtMillis.None?
    ensures item.favoritedMillis.Null? <==> s.favoritedAtMillis.None?
  {
    SnapshotItem(Known(s.id), StringOrNull(s.state), StringOrNull(s.processingTrigger), StringOrNull(s.parentSnapshotId),
                 StringOrNull(s.note), PointerOrNull(s.isDraft), PointerOrNull(s.creationDateMillis),
                 PointerOrNull(s.processedAtMillis), PointerOrNull(s.restoredAtMillis), StringOrNull(s.favoritedBy),
                 StringOrNull(s.favoritedByUserId), PointerOrNull(s.favoritedAtMillis))
  }

  /** Nothing the API reports is lost in an item: every field reads back as it came, and none is
      unknown. */
  lemma ItemReadsBack(s: Snapshot)
    ensures var item := ItemOf(s);
      && StringOrEmpty(item.state) == s.state && StringOrEmpty(item.processingTrigger) == s.processingTrigger
      && StringOrEmpty(item.parentSnapshotId) == s.parentSnapshotId && StringOrEmpty(item.note) == s.note
      && StringOrEmpty(item.favoritedBy) == s.favoritedBy && StringOrEmpty(item.favoritedByUserId) == s.favoritedByUserId
      && Pointer(item.isDraft) == s.isDraft && Pointer(item.creationMillis) == s.creationDateMillis
      && Pointer(item.processedMillis) == s.processedAtMillis && Pointer(item.restoredMillis) == s.restoredAtMillis
      && Pointer(item.favoritedMillis) == s.favoritedAtMillis
      && !item.state.Unknown? && !item.note.Unknown? && !item.isDraft.Unknown?
  {
  }

  /** The items of a listing: one per snapshot, in order. */
  function ItemsOf(snapshots: seq<Snapshot>): (items: seq<SnapshotItem>)
    ensures |items| == |snapshots|
    ensures forall i :: 0 <= i < |snapshots| ==> items[i] == ItemOf(snapshots[i]) && items[i].id == Known(snapshots[i].id)
  {
    seq(|snapshots|, i requires 0 <= i < |snapshots| => ItemOf(snapshots[i]))
  }

  /** The loop of `Read`. Its body's field-by-field overwriting of an all-null item is `ItemOf`. */
  method Items(snapshots: seq<Snapshot>) returns (items: seq<SnapshotItem>)
    ensures items == ItemsOf(snapshots)
  {
    items := [];
    for i := 0 to |snapshots|
      invariant |items| == i
      invariant forall j :: 0 <= j < i ==> items[j] == ItemOf(snapshots[j])
    {
      items := items + [ItemOf(snapshots[i])];
    }
  }

  const MissingNetworkId: Diagnostic :=
    Diagnostic(Some("network_id"), "Missing Network ID", "Network ID must be specified either on the provider or data source.")
  const InvalidLimit: Diagnostic :=
    Diagnostic(Some("limit"), "Invalid Limit", "Limit must be zero or a positive integer.")

  /** The listing options `Read` builds: each is set exactly when its attribute is known. */
  function ListOptions(data: SnapshotsModel): (opts: SnapshotListOptions)
    ensures opts.limit == Pointer(data.limit) && opts.includeArchived == Pointer(data.includeArchived)
    ensures opts.limit.Some? <==> data.limit.Known?
    ensures opts.includeArchived.Some? <==> data.includeArchived.Known?
  {
    SnapshotListOptions(Pointer(data.limit), Pointer(data.includeArchived))
  }

  /** `ListSnapshots(ctx, networkID, options)`. */
  type ListCall = (string, SnapshotListOptions) -> Result<seq<Snapshot>>

  /** A listing that was called with what it was called with. */
  datatype ListRequest = ListRequest(networkId: string, options: SnapshotListOptions)

  /** `Read`: the network ID used is the data source's own when known (even if empty), the
      provider's otherwise; `called` is the call to the API, if one was made. */
  method Read(data: SnapshotsModel, providerNetworkId: string, list: ListCall)
    returns (r: Diagnosed<SnapshotsModel>, called: Option<ListRequest>)
    ensures var networkId := ValueOr(data.networkId, providerNetworkId);
      && (networkId == "" ==> r == Invalid(MissingNetworkId) && called == None)
      && (networkId != "" && data.limit.Known? && data.limit.value < 0 ==> r == Invalid(InvalidLimit) && called == None)
      && (called.Some? <==> networkId != "" && !(data.limit.Known? && data.limit.value < 0))
      && (called.Some? ==> called.value == ListRequest(networkId, ListOptions(data)))
      && (called.Some? ==>
            var listed := list(networkId, ListOptions(data));
            && (listed.Err? ==> r == Invalid(Diagnostic(None, "Unable to Retrieve Snapshots", listed.error.msg)))
            && (listed.Ok? ==> r == Valid(data.(snapshots := ItemsOf(listed.value)))))
  {
    var networkId := providerNetworkId;
    if !data.networkId.Null? && !data.networkId.Unknown? {
      networkId := data.networkId.value;
    }
    if networkId == "" {
      return Invalid(MissingNetworkId), None;
    }
    var options := SnapshotListOptions(None, None);
    if !data.limit.Null? && !data.limit.Unknown? {
      var limit := data.limit.value;
      if limit < 0 {
        return Invalid(InvalidLimit), None;
      }
      options := options.(limit := Some(limit));
    }
    if !data.includeArchived.Null? && !data.includeArchived.Unknown? {
      options := options.(includeArchived := Some(data.includeArchived.value));
    }
    called := Some(ListRequest(networkId, options));
    var snapshots := list(networkId, options);
    if snapshots.Err? {
      return Invalid(Diagnostic(None, "Unable to Retrieve Snapshots", snapshots.error.msg)), called;
    }
    var items := Items(snapshots.value);
    r := Valid(data.(snapshots := items));
  }

  /** The limit the API is asked for is never negative. */
  lemma ListedLimitNonNegative(data: SnapshotsModel)
    requires !(data.limit.Known? && data.limit.value < 0)
    ensures ListOptions(data).limit.Some? ==> ListOptions(data).limit.value >= 0
  {
  }
}
