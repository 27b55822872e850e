/** The URL binding (`useStorageUrl`): a published download URL, the `promise` cell holding
    the most recent request, and the log of download-URL lookups issued to the transport. */
module UrlBinding {
  import opened Wrappers
  import opened StorageTypes

  /** `requests[i]` is the reference looked up by request `i`. */
  datatype UrlState = UrlState(value: Option<Url>, promise: PromiseSlot, requests: seq<StorageRef>)

  /** The promise cell is the resolved null promise or belongs to the newest request. */
  predicate Wf(s: UrlState) {
    SlotHoldsNewest(s.promise, |s.requests|)
  }

  /** Whether `id` names the request that currently owns the promise cell. */
  predicate OwnsSlot(s: UrlState, id: RequestId) {
    s.promise == RequestPromise(id)
  }

  /** `refresh()`: with no reference, publish null at once and install the resolved null
      promise; with a reference, issue a lookup, which takes over the promise cell, and leave
      the published value to the lookup's resolution. */
  function Refresh(s: UrlState, current: Option<StorageRef>): (s': UrlState)
    ensures Wf(s')
    ensures current.None? ==>
      s'.value == None && s'.promise == NullPromise && s'.requests == s.requests
    ensures current.Some? ==>
      && s'.value == s.value
      && |s'.requests| == |s.requests| + 1
      && s'.requests[..|s.requests|] == s.requests
      && s'.requests[|s.requests|] == current.value
      && OwnsSlot(s', |s.requests|)
  {
    match current
    case None => s.(value := None, promise := NullPromise)
    case Some(r) => s.(promise := RequestPromise(|s.requests|), requests := s.requests + [r])
  }

  /** Construction: the value seeded by the hydration registry (if any), then one `refresh()`. */
  function Create(current: Option<StorageRef>, seeded: Option<Url>): (s: UrlState)
    ensures Wf(s)
    ensures current.None? ==> s.value == None && s.promise == NullPromise && s.requests == []
    ensures current.Some? ==>
      s.value == seeded && s.requests == [current.value] && OwnsSlot(s, 0)
  {
    Refresh(UrlState(seeded, NullPromise, []), current)
  }

  /** The lookup `id` resolved with `u`: the handler publishes `u` whether or not `id` still
      owns the promise cell, and leaves the cell alone. */
  function Resolve(s: UrlState, id: RequestId, u: Url): (s': UrlState)
    requires id < |s.requests|
    ensures s'.value == Some(u)
    ensures s'.promise == s.promise && s'.requests == s.requests
    ensures Wf(s) ==> Wf(s')
  {
    s.(value := Some(u))
  }

  /** Last call owns the handle, not the value: two lookups resolving in reverse order leave
      the older lookup's URL published while the newer one keeps the promise cell. */
  lemma StaleResolutionWins(s: UrlState, r1: StorageRef, r2: StorageRef, u1: Url, u2: Url)
    ensures
      var a := |s.requests|;
      var issued := Refresh(Refresh(s, Some(r1)), Some(r2));
      var settled := Resolve(Resolve(issued, a + 1, u2), a, u1);
      && settled.value == Some(u1)
      && OwnsSlot(settled, a + 1)
      && !OwnsSlot(settled, a)
  {
  }

  /** Refreshing twice in a row (as a watched reference change does) publishes the same value
      as refreshing once, the slot again belongs to the newest request, and the only extra
      effect is one more lookup of the same reference. */
  lemma RefreshTwiceLikeOnce(s: UrlState, current: Option<StorageRef>)
    ensures
      var once := Refresh(s, current);
      var twice := Refresh(once, current);
      && twice.value == once.value
      && Wf(twice)
      && (current.Some? ==> OwnsSlot(twice, |once.requests|))
      && (current.None? ==> twice == once)
      && (current.Some? ==> twice.requests == once.requests + [current.value])
  {
  }

  /** With the lookups of one reference answering the same URL, two successive refreshes
      end with that URL published whatever order they resolve in. */
  lemma StableRefreshAgrees(s: UrlState, r: StorageRef, u: Url, newerFirst: bool)
    ensures
      var a := |s.requests|;
      var issued := Refresh(Refresh(s, Some(r)), Some(r));
      var settled :=
        if newerFirst then Resolve(Resolve(issued, a + 1, u), a, u)
        else Resolve(Resolve(issued, a, u), a + 1, u);
      settled.value == Some(u)
  {
  }
}
