/** Traces of the object binding: the calls a consumer can make, the completions the transport
    can deliver, and also the unexported delete helper, applied one after another from a
    freshly created binding. Including the delete only widens the set of traces the
    invariant is proved over. */
module ObjectRuns {
  import opened Wrappers
  import opened StorageTypes
  import opened ObjectBinding

  /** One thing that can happen to an object binding. */
  datatype Action =
    | RefreshAll
    | UpdateFields(fields: SettableMetadata)
    | UploadData(data: Payload, uploadMetadata: Option<UploadMetadata>, initial: Snapshot)
    | Delete
    | SetReference(r: Option<StorageRef>)
    | UrlLookupResolved(id: RequestId, u: Url)
    | UrlLookupRejected(id: RequestId)
    | MetadataRequestResolved(id: RequestId, served: FullMetadata)
    | MetadataRequestRejected(id: RequestId)
    | Progressed(task: TaskId, snap: Snapshot)
    | Succeeded(task: TaskId, final: Snapshot)
    | Failed(task: TaskId, err: StorageError)

  /** Whether `a` can happen in `s`: only a watched reference can be reassigned, only issued
      requests and created tasks settle, and progress reaches only a registered listener. */
  predicate Enabled(s: ObjectState, a: Action) {
    match a
    case SetReference(_) => s.source.Watched?
    case UrlLookupResolved(id, _) => id < |s.url.requests|
    case UrlLookupRejected(id) => id < |s.url.requests|
    case MetadataRequestResolved(id, _) => id < |s.metadata.requests|
    case MetadataRequestRejected(id) => id < |s.metadata.requests|
    case Progressed(t, _) => s.subscribed && t + 1 == |s.tasks|
    case Succeeded(t, _) => t < |s.tasks|
    case Failed(t, _) => t < |s.tasks|
    case _ => true
  }

  /** The transition of `a`. A rejected URL or metadata request changes nothing: the last
      published value is kept. */
  function Step(s: ObjectState, a: Action): ObjectState
    requires Enabled(s, a)
  {
    match a
    case RefreshAll => Refresh(s)
    case UpdateFields(fields) => UpdateMetadata(s, fields)
    case UploadData(data, md, initial) => Upload(s, data, md, initial)
    case Delete => DeleteObject(s)
    case SetReference(r) => ChangeReference(s, r)
    case UrlLookupResolved(id, u) => UrlResolved(s, id, u)
    case UrlLookupRejected(_) => s
    case MetadataRequestResolved(id, md) => MetadataResolved(s, id, md)
    case MetadataRequestRejected(_) => s
    case Progressed(t, snap) => TaskProgress(s, t, snap)
    case Succeeded(t, final) => TaskSucceeded(s, t, final)
    case Failed(t, err) => TaskFailed(s, t, err)
  }

  /** Whether every action of `trace` is enabled when its turn comes. */
  predicate Valid(s: ObjectState, trace: seq<Action>)
    decreases |trace|
  {
    |trace| == 0 || (Enabled(s, trace[0]) && Valid(Step(s, trace[0]), trace[1..]))
  }

  /** The state after `trace`. */
  function Run(s: ObjectState, trace: seq<Action>): ObjectState
    requires Valid(s, trace)
    decreases |trace|
  {
    if |trace| == 0 then s else Run(Step(s, trace[0]), trace[1..])
  }

  /** Every single transition keeps the invariant. */
  lemma StepKeepsInv(s: ObjectState, a: Action)
    requires Inv(s) && Enabled(s, a)
    ensures Inv(Step(s, a))
  {
  }

  /** Every valid trace keeps the invariant. */
  lemma {:induction false} RunKeepsInv(s: ObjectState, trace: seq<Action>)
    requires Inv(s) && Valid(s, trace)
    ensures Inv(Run(s, trace))
    decreases |trace|
  {
    if |trace| > 0 {
      StepKeepsInv(s, trace[0]);
      RunKeepsInv(Step(s, trace[0]), trace[1..]);
    }
  }

  /** Every state reachable from construction satisfies the invariant: at most one held task
      (the held task is the newest one, and it has not been cancelled), a registered
      listener exactly while a task is held, no task cancelled twice, and promise cells that
      belong to their binding's newest request. */
  lemma ReachableStatesKeepInv(
    source: Source, seededUrl: Option<Url>, seededMetadata: Option<FullMetadata>,
    trace: seq<Action>)
    requires Valid(Create(source, seededUrl, seededMetadata), trace)
    ensures Inv(Run(Create(source, seededUrl, seededMetadata), trace))
  {
    RunKeepsInv(Create(source, seededUrl, seededMetadata), trace);
  }

  /** Under the invariant a progress event can only reach the held task, and while a task is
      held the upload progress is defined. */
  lemma ProgressOnlyForHeldTask(s: ObjectState, t: TaskId, snap: Snapshot)
    requires Inv(s)
    ensures Enabled(s, Progressed(t, snap)) <==> s.uploadTask == Some(t)
    ensures s.uploadTask.Some? ==> Progress(s).Some?
  {
  }

  /** Under the invariant the held task is not among the cancelled ones, and no task appears
      twice among them. */
  lemma HeldTaskNotCancelled(s: ObjectState)
    requires Inv(s)
    ensures s.uploadTask.Some? ==> s.uploadTask.value !in s.cancelled
    ensures forall i, j :: 0 <= i < j < |s.cancelled| ==> s.cancelled[i] != s.cancelled[j]
  {
  }
}
