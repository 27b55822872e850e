/** The metadata binding (`useStorageMetadata`): published metadata, the `promise` cell holding
    the most recent request, and the log of metadata reads and updates sent to the transport. */
module MetadataBinding {
  import opened Wrappers
  import opened StorageTypes

  /** A request of the metadata binding: a read of the reference's metadata, or an update of
      its settable fields. */
  datatype MetadataRequest =
    | GetMetadata(ref: StorageRef)
    | UpdateMetadata(ref: StorageRef, fields: SettableMetadata)

  /** `requests[i]` is the request with id `i`. */
  datatype MetadataState = MetadataState(
    value: Option<FullMetadata>,
    promise: PromiseSlot,
    requests: seq<MetadataRequest>)

  /** The promise cell is the resolved null promise or belongs to the newest request. */
  predicate Wf(s: MetadataState) {
    SlotHoldsNewest(s.promise, |s.requests|)
  }

  /** Whether `id` names the request that currently owns the promise cell. */
  predicate OwnsSlot(s: MetadataState, id: RequestId) {
    s.promise == RequestPromise(id)
  }

  /** `refresh()`: with no reference, publish null at once and install the resolved null
      promise; with a reference, issue a read, which takes over the promise cell, and leave
      the published value to the read's resolution. */
  function Refresh(s: MetadataState, current: Option<StorageRef>): (s': MetadataState)
    ensures Wf(s')
    ensures current.None? ==>
      s'.value == None && s'.promise == NullPromise && s'.requests == s.requests
    ensures current.Some? ==>
      && s'.value == s.value
      && s'.requests == s.requests + [GetMetadata(current.value)]
      && OwnsSlot(s', |s.requests|)
  {
    match current
    case None => s.(value := None, promise := NullPromise)
    case Some(r) =>
      s.(promise := RequestPromise(|s.requests|), requests := s.requests + [GetMetadata(r)])
  }

  /** `update(fields)`: with no reference nothing at all changes; with a reference, an update
      request carrying the caller's fields takes over the promise cell and the published value
      is left to its resolution. */
  function Update(s: MetadataState, current: Option<StorageRef>, fields: SettableMetadata)
    : (s': MetadataState)
    ensures Wf(s) ==> Wf(s')
    ensures current.None? ==> s' == s
    ensures current.Some? ==>
      && s'.value == s.value
      && s'.requests == s.requests + [UpdateMetadata(current.value, fields)]
      && OwnsSlot(s', |s.requests|)
  {
    match current
    case None => s
    case Some(r) =>
      s.(promise := RequestPromise(|s.requests|),
         requests := s.requests + [UpdateMetadata(r, fields)])
  }

  /** Construction: the value seeded by the hydration registry (consulted only when a
      reference is present), then one `refresh()`. */
  function Create(current: Option<StorageRef>, seeded: Option<FullMetadata>): (s: MetadataState)
    ensures Wf(s)
    ensures current.None? ==> s.value == None && s.promise == NullPromise && s.requests == []
    ensures current.Some? ==>
      s.value == seeded && s.requests == [GetMetadata(current.value)] && OwnsSlot(s, 0)
  {
    var initial := if current.Some? then seeded else None;
    Refresh(MetadataState(initial, NullPromise, []), current)
  }

  /** The read or update `id` resolved with the server's metadata `md`: the handler publishes
      `md` whether or not `id` still owns the promise cell, and leaves the cell alone. */
  function Resolve(s: MetadataState, id: RequestId, md: FullMetadata): (s': MetadataState)
    requires id < |s.requests|
    ensures s'.value == Some(md)
    ensures s'.promise == s.promise && s'.requests == s.requests
    ensures Wf(s) ==> Wf(s')
  {
    s.(value := Some(md))
  }

  /** An update publishes what the server returned: two updates with different caller fields
      that the server answers alike publish the same metadata, which is the server's object. */
  lemma UpdatePublishesServerMetadata(
    s: MetadataState, r: StorageRef, f1: SettableMetadata, f2: SettableMetadata, md: FullMetadata)
    ensures
      var id := |s.requests|;
      var one := Resolve(Update(s, Some(r), f1), id, md);
      var two := Resolve(Update(s, Some(r), f2), id, md);
      && one.value == two.value == Some(md)
      && one.requests[id] == UpdateMetadata(r, f1)
      && OwnsSlot(one, id)
  {
  }

  /** A stale read still publishes: an update issued after a read owns the slot, yet if the
      read resolves last its metadata is what stays published. */
  lemma StaleReadOverwritesUpdate(
    s: MetadataState, r: StorageRef, fields: SettableMetadata,
    read: FullMetadata, updated: FullMetadata)
    ensures
      var a := |s.requests|;
      var issued := Update(Refresh(s, Some(r)), Some(r), fields);
      var settled := Resolve(Resolve(issued, a + 1, updated), a, read);
      && settled.value == Some(read)
      && OwnsSlot(settled, a + 1)
  {
  }

  /** Refreshing twice in a row publishes the same value as refreshing once and leaves the
      newest request in the slot. */
  lemma RefreshTwiceLikeOnce(s: MetadataState, current: Option<StorageRef>)
    ensures
      var once := Refresh(s, current);
      var twice := Refresh(once, current);
      && twice.value == once.value
      && Wf(twice)
      && (current.Some? ==> OwnsSlot(twice, |once.requests|))
      && (current.None? ==> twice == once)
      && (current.Some? ==> twice.requests == once.requests + [GetMetadata(current.value)])
  {
  }
}
