/** The object binding (`useStorageObject`): the URL and metadata bindings it composes, plus
    the upload state machine (held task, snapshot, error, progress subscription). Every
    operation and every completion event is a pure transition over one state record. */
module ObjectBinding {
  import opened Wrappers
  import opened StorageTypes
  import UrlBinding
  import MetadataBinding

  /** One call to the resumable-upload transport. */
  datatype UploadRequest =
    UploadRequest(ref: StorageRef, data: Payload, metadata: Option<UploadMetadata>)

  /** The state of one object binding.
      - `uploadTask`: the task the binding currently holds (the source's `uploadTask` cell);
      - `subscribed`: whether the progress listener the source's `unsub` would remove is
        still registered;
      - `tasks[i]`: the upload that created task `i`;
      - `cancelled`: the tasks cancelled so far, in order;
      - `deleted`: the references passed to the delete call so far. */
  datatype ObjectState = ObjectState(
    source: Source,
    url: UrlBinding.UrlState,
    metadata: MetadataBinding.MetadataState,
    uploadTask: Option<TaskId>,
    snapshot: Option<Snapshot>,
    uploadError: Option<StorageError>,
    subscribed: bool,
    tasks: seq<UploadRequest>,
    cancelled: seq<TaskId>,
    deleted: seq<StorageRef>)

  /** The fraction `bytesTransferred / totalBytes`, kept as its two operands. */
  datatype Ratio = Ratio(numerator: nat, denominator: nat)

  /** The reference the binding currently reads. */
  function Current(s: ObjectState): Option<StorageRef> {
    s.source.ref
  }

  /** The task fields: the held task, its snapshot, the error, the subscription and the logs. */
  predicate UploadFieldsUnchanged(s: ObjectState, s': ObjectState) {
    && s'.source == s.source
    && s'.uploadTask == s.uploadTask
    && s'.snapshot == s.snapshot
    && s'.uploadError == s.uploadError
    && s'.subscribed == s.subscribed
    && s'.tasks == s.tasks
    && s'.cancelled == s.cancelled
    && s'.deleted == s.deleted
  }

  /** Tasks are cancelled in creation order, each at most once, and only tasks that exist. */
  predicate CancelledInOrder(cancelled: seq<TaskId>, created: nat) {
    && (forall i, j :: 0 <= i < j < |cancelled| ==> cancelled[i] < cancelled[j])
    && (forall i :: 0 <= i < |cancelled| ==> cancelled[i] < created)
  }

  /** What holds in every state the binding can reach.
      - the promise cells belong to the newest request of their binding;
      - a progress listener is registered exactly while a task is held;
      - the held task is the newest task, has a snapshot, and is later than every cancelled
        task (so it has not been cancelled);
      - no task is cancelled twice. */
  predicate Inv(s: ObjectState) {
    && UrlBinding.Wf(s.url)
    && MetadataBinding.Wf(s.metadata)
    && (s.subscribed <==> s.uploadTask.Some?)
    && CancelledInOrder(s.cancelled, |s.tasks|)
    && (s.uploadTask.Some? ==>
          && s.uploadTask.value + 1 == |s.tasks|
          && s.snapshot.Some?
          && forall i :: 0 <= i < |s.cancelled| ==> s.cancelled[i] < s.uploadTask.value)
  }

  /** The tasks a cancellation of the held task (if any) adds to the log. */
  function HeldTask(s: ObjectState): seq<TaskId> {
    match s.uploadTask
    case None => []
    case Some(t) => [t]
  }

  /** `uploadProgress`: present exactly when a snapshot is held, built from its byte counts. */
  function Progress(s: ObjectState): (p: Option<Ratio>)
    ensures p.Some? <==> s.snapshot.Some?
    ensures p.Some? ==>
      p.value.numerator == s.snapshot.value.bytesTransferred
      && p.value.denominator == s.snapshot.value.totalBytes
  {
    match s.snapshot
    case None => None
    case Some(snap) => Some(Ratio(snap.bytesTransferred, snap.totalBytes))
  }

  /** Construction: the URL binding, then the metadata binding (each seeded and refreshed once),
      and an idle upload machine. */
  function Create(source: Source, seededUrl: Option<Url>, seededMetadata: Option<FullMetadata>)
    : (s: ObjectState)
    ensures Inv(s)
    ensures s.source == source
    ensures s.url == UrlBinding.Create(source.ref, seededUrl)
    ensures s.metadata == MetadataBinding.Create(source.ref, seededMetadata)
    ensures s.uploadTask == None && s.snapshot == None && s.uploadError == None
    ensures !s.subscribed && Progress(s) == None
    ensures s.tasks == [] && s.cancelled == [] && s.deleted == []
  {
    ObjectState(
      source,
      UrlBinding.Create(source.ref, seededUrl),
      MetadataBinding.Create(source.ref, seededMetadata),
      None, None, None, false, [], [], [])
  }

  /** `refresh()`: a URL refresh and a metadata refresh against the current reference; the
      upload machine is untouched. */
  function Refresh(s: ObjectState): (s': ObjectState)
    ensures s'.url == UrlBinding.Refresh(s.url, Current(s))
    ensures s'.metadata == MetadataBinding.Refresh(s.metadata, Current(s))
    ensures UploadFieldsUnchanged(s, s')
    ensures Inv(s) ==> Inv(s')
  {
    s.(url := UrlBinding.Refresh(s.url, Current(s)),
       metadata := MetadataBinding.Refresh(s.metadata, Current(s)))
  }

  /** `updateMetadata(fields)`: the metadata binding's update against the current reference. */
  function UpdateMetadata(s: ObjectState, fields: SettableMetadata): (s': ObjectState)
    ensures s'.metadata == MetadataBinding.Update(s.metadata, Current(s), fields)
    ensures s'.url == s.url && UploadFieldsUnchanged(s, s')
    ensures Current(s).None? ==> s' == s
    ensures Inv(s) ==> Inv(s')
  {
    s.(metadata := MetadataBinding.Update(s.metadata, Current(s), fields))
  }

  /** The first half of `upload`: cancel the held task if there is one, then null the error,
      the snapshot, the held task, the URL and the metadata, and remove the progress listener.
      Promise cells and request logs are untouched. */
  function CancelAndClear(s: ObjectState): (s': ObjectState)
    ensures s'.cancelled == s.cancelled + HeldTask(s)
    ensures s'.uploadTask == None && s'.snapshot == None && s'.uploadError == None
    ensures !s'.subscribed
    ensures s'.url.value == None && s'.metadata.value == None
    ensures s'.url.promise == s.url.promise && s'.url.requests == s.url.requests
    ensures s'.metadata.promise == s.metadata.promise
    ensures s'.metadata.requests == s.metadata.requests
    ensures s'.source == s.source && s'.tasks == s.tasks && s'.deleted == s.deleted
  {
    s.(cancelled := s.cancelled + HeldTask(s),
       uploadError := None,
       snapshot := None,
       uploadTask := None,
       url := s.url.(value := None),
       metadata := s.metadata.(value := None),
       subscribed := false)
  }

  /** `upload(data, metadata)`: cancel and clear first; then, if a reference is present,
      start a new task, which becomes the held task with the transport's `initial` snapshot
      and a registered progress listener. Without a reference the cleared state stands. */
  function Upload(s: ObjectState, data: Payload, md: Option<UploadMetadata>, initial: Snapshot)
    : (s': ObjectState)
    ensures s'.cancelled == s.cancelled + HeldTask(s)
    ensures s'.uploadError == None
    ensures s'.url.value == None && s'.metadata.value == None
    ensures s'.url.promise == s.url.promise && s'.url.requests == s.url.requests
    ensures s'.metadata.promise == s.metadata.promise
    ensures s'.metadata.requests == s.metadata.requests
    ensures s'.source == s.source && s'.deleted == s.deleted
    ensures Current(s).None? ==>
      && s' == CancelAndClear(s)
      && s'.uploadTask == None && s'.snapshot == None && !s'.subscribed
      && s'.tasks == s.tasks
    ensures Current(s).Some? ==>
      && s'.tasks == s.tasks + [UploadRequest(Current(s).value, data, md)]
      && s'.uploadTask == Some(|s.tasks|)
      && s'.snapshot == Some(initial)
      && s'.subscribed
    ensures Inv(s) ==> Inv(s')
  {
    var cleared := CancelAndClear(s);
    match Current(s)
    case None => cleared
    case Some(r) =>
      cleared.(tasks := cleared.tasks + [UploadRequest(r, data, md)],
               uploadTask := Some(|cleared.tasks|),
               snapshot := Some(initial),
               subscribed := true)
  }

  /** `_deleteObject()`, a helper that `useStorageObject` defines but does not return to its
      callers: with a reference, send the delete and null the metadata, the URL, the
      snapshot and the held task and remove the progress listener; the held task is NOT
      cancelled and the error is kept. Without a reference nothing changes. */
  function DeleteObject(s: ObjectState): (s': ObjectState)
    ensures Current(s).None? ==> s' == s
    ensures Current(s).Some? ==>
      && s'.deleted == s.deleted + [Current(s).value]
      && s'.metadata.value == None && s'.url.value == None
      && s'.snapshot == None && s'.uploadTask == None && !s'.subscribed
      && s'.uploadError == s.uploadError
      && s'.cancelled == s.cancelled
      && s'.tasks == s.tasks
      && s'.source == s.source
      && s'.url.promise == s.url.promise && s'.url.requests == s.url.requests
      && s'.metadata.promise == s.metadata.promise
      && s'.metadata.requests == s.metadata.requests
    ensures Inv(s) ==> Inv(s')
  {
    match Current(s)
    case None => s
    case Some(r) =>
      s.(deleted := s.deleted + [r],
         metadata := s.metadata.(value := None),
         url := s.url.(value := None),
         subscribed := false,
         snapshot := None,
         uploadTask := None)
  }

  /** The object's own watcher, null branch: remove the listener and cancel the held task if
      there is one, then null the held task and the snapshot. With no held task the
      listener is left as it is. */
  function DropTask(s: ObjectState): (s': ObjectState)
    ensures s'.cancelled == s.cancelled + HeldTask(s)
    ensures s'.uploadTask == None && s'.snapshot == None
    ensures s'.subscribed == (s.subscribed && s.uploadTask.None?)
    ensures s'.url == s.url && s'.metadata == s.metadata
    ensures s'.uploadError == s.uploadError
    ensures s'.source == s.source && s'.tasks == s.tasks && s'.deleted == s.deleted
  {
    match s.uploadTask
    case None => s.(uploadTask := None, snapshot := None)
    case Some(t) =>
      s.(subscribed := false, cancelled := s.cancelled + [t], uploadTask := None, snapshot := None)
  }

  /** A new value `r` written into a watched reference cell. Nothing happens when it is the
      same value in Vue's sense (the same reference object, or absent again). Otherwise the
      three watchers run in registration order: the URL binding's refresh, the metadata
      binding's refresh, then the object's own watcher (drop the task when `r` is null, then
      refresh both bindings again). */
  function ChangeReference(s: ObjectState, r: Option<StorageRef>): (s': ObjectState)
    requires s.source.Watched?
    ensures SameValue(r, Current(s)) ==> s' == s
    ensures !SameValue(r, Current(s)) ==> s'.source == Watched(r) && s'.deleted == s.deleted
    ensures !SameValue(r, Current(s)) && r.None? ==>
      && s'.url.value == None && s'.metadata.value == None
      && s'.url.promise == NullPromise && s'.metadata.promise == NullPromise
      && s'.url.requests == s.url.requests && s'.metadata.requests == s.metadata.requests
      && s'.cancelled == s.cancelled + HeldTask(s)
      && s'.uploadTask == None && s'.snapshot == None
      && s'.subscribed == (s.subscribed && s.uploadTask.None?)
      && s'.uploadError == s.uploadError && s'.tasks == s.tasks
    ensures !SameValue(r, Current(s)) && r.Some? ==>
      && s'.url.value == s.url.value && s'.metadata.value == s.metadata.value
      && s'.url.requests == s.url.requests + [r.value, r.value]
      && s'.metadata.requests
           == s.metadata.requests
              + [MetadataBinding.GetMetadata(r.value), MetadataBinding.GetMetadata(r.value)]
      && UrlBinding.OwnsSlot(s'.url, |s.url.requests| + 1)
      && MetadataBinding.OwnsSlot(s'.metadata, |s.metadata.requests| + 1)
      && s'.cancelled == s.cancelled && s'.uploadTask == s.uploadTask
      && s'.snapshot == s.snapshot && s'.subscribed == s.subscribed
      && s'.uploadError == s.uploadError && s'.tasks == s.tasks
    ensures Inv(s) ==> Inv(s')
  {
    if SameValue(r, Current(s)) then s
    else
      var moved := s.(source := Watched(r));
      var inherited := moved.(url := UrlBinding.Refresh(moved.url, r),
                                 metadata := MetadataBinding.Refresh(moved.metadata, r));
      var dropped := if r.None? then DropTask(inherited) else inherited;
      Refresh(dropped)
  }

  /** The URL lookup `id` resolved with `u`: published unconditionally. */
  function UrlResolved(s: ObjectState, id: RequestId, u: Url): (s': ObjectState)
    requires id < |s.url.requests|
    ensures s'.url == UrlBinding.Resolve(s.url, id, u)
    ensures s'.metadata == s.metadata && UploadFieldsUnchanged(s, s')
    ensures Inv(s) ==> Inv(s')
  {
    s.(url := UrlBinding.Resolve(s.url, id, u))
  }

  /** The metadata read or update `id` resolved with `md`: published unconditionally. */
  function MetadataResolved(s: ObjectState, id: RequestId, md: FullMetadata): (s': ObjectState)
    requires id < |s.metadata.requests|
    ensures s'.metadata == MetadataBinding.Resolve(s.metadata, id, md)
    ensures s'.url == s.url && UploadFieldsUnchanged(s, s')
    ensures Inv(s) ==> Inv(s')
  {
    s.(metadata := MetadataBinding.Resolve(s.metadata, id, md))
  }

  /** A progress event of task `t`; it is delivered only to the listener of the newest task,
      and only while that listener is registered. */
  function TaskProgress(s: ObjectState, t: TaskId, snap: Snapshot): (s': ObjectState)
    requires s.subscribed && t + 1 == |s.tasks|
    ensures s'.snapshot == Some(snap) && Progress(s').Some?
    ensures s'.uploadTask == s.uploadTask && s'.subscribed
    ensures s'.url == s.url && s'.metadata == s.metadata
    ensures s'.uploadError == s.uploadError && s'.tasks == s.tasks
    ensures s'.cancelled == s.cancelled && s'.deleted == s.deleted && s'.source == s.source
    ensures Inv(s) ==> Inv(s') && s'.uploadTask == Some(t)
  {
    s.(snapshot := Some(snap))
  }

  /** Task `t` succeeded with `final`. The handler does not check which task it belongs to:
      it nulls the held task, removes the registered listener, publishes the final snapshot's
      metadata and issues a URL refresh. The snapshot and the error are kept. */
  function TaskSucceeded(s: ObjectState, t: TaskId, final: Snapshot): (s': ObjectState)
    requires t < |s.tasks|
    ensures s'.uploadTask == None && !s'.subscribed
    ensures s'.metadata.value == Some(final.metadata)
    ensures s'.metadata.promise == s.metadata.promise
    ensures s'.metadata.requests == s.metadata.requests
    ensures s'.url == UrlBinding.Refresh(s.url, Current(s))
    ensures s'.snapshot == s.snapshot && s'.uploadError == s.uploadError
    ensures s'.tasks == s.tasks && s'.cancelled == s.cancelled
    ensures s'.deleted == s.deleted && s'.source == s.source
    ensures Inv(s) ==> Inv(s')
  {
    var finished := s.(uploadTask := None, subscribed := false,
                       metadata := s.metadata.(value := Some(final.metadata)));
    finished.(url := UrlBinding.Refresh(finished.url, Current(finished)))
  }

  /** Task `t` failed with `err`. The handler does not check which task it belongs to: it
      removes the registered listener, nulls the held task and records the error; the URL,
      the metadata and the snapshot are untouched. */
  function TaskFailed(s: ObjectState, t: TaskId, err: StorageError): (s': ObjectState)
    requires t < |s.tasks|
    ensures s'.uploadTask == None && !s'.subscribed
    ensures s'.uploadError == Some(err)
    ensures s'.url == s.url && s'.metadata == s.metadata && s'.snapshot == s.snapshot
    ensures s'.tasks == s.tasks && s'.cancelled == s.cancelled
    ensures s'.deleted == s.deleted && s'.source == s.source
    ensures Inv(s) ==> Inv(s')
  {
    s.(subscribed := false, uploadTask := None, uploadError := Some(err))
  }
}
