/** Consequences of the object binding's transitions over several steps: what the upload
    lifecycle leaves behind, and where the unguarded completion handlers let an older request
    or task overwrite newer state. */
module ObjectScenarios {
  import opened Wrappers
  import opened StorageTypes
  import opened ObjectBinding
  import opened ObjectRuns
  import UrlBinding
  import MetadataBinding

  /** Setting a watched reference to null nulls the URL, the metadata, the held task and the
      progress, and cancels the task that was held. */
  lemma NullReferenceClearsState(s: ObjectState)
    requires Inv(s) && s.source.Watched? && Current(s).Some?
    ensures
      var s' := ChangeReference(s, None);
      && s'.url.value == None && s'.metadata.value == None
      && s'.uploadTask == None && Progress(s') == None && !s'.subscribed
      && (s.uploadTask.Some? ==> s.uploadTask.value in s'.cancelled)
  {
  }

  /** A lookup issued before the reference was set to null still publishes when it resolves,
      so a URL can be published while no reference is set. */
  lemma {:induction false} LateLookupOutlivesNullReference(r: StorageRef, u: Url)
    ensures
      var s := Create(Watched(Some(r)), None, None);
      var trace := [SetReference(None), UrlLookupResolved(0, u)];
      && Valid(s, trace)
      && Current(Run(s, trace)) == None
      && Run(s, trace).url.value == Some(u)
  {
    var s := Create(Watched(Some(r)), None, None);
    var s1 := Step(s, SetReference(None));
    var s2 := Step(s1, UrlLookupResolved(0, u));
    assert |s1.url.requests| == 1;
    assert Valid(s2, []);
    assert Run(s1, [UrlLookupResolved(0, u)]) == s2 by {
      assert [UrlLookupResolved(0, u)][1..] == [];
    }
    assert [SetReference(None), UrlLookupResolved(0, u)][1..] == [UrlLookupResolved(0, u)];
  }

  /** Uploading twice in a row cancels the first task and holds the second with no error.
      If the cancelled first task then reports a failure, its handler nulls the held task,
      removes the second task's listener and records the error, while the second task is
      neither held nor cancelled. */
  lemma CancelledTaskFailureDropsNewerUpload(
    s: ObjectState, dataA: Payload, mdA: Option<UploadMetadata>, initialA: Snapshot,
    dataB: Payload, mdB: Option<UploadMetadata>, initialB: Snapshot, err: StorageError)
    requires Inv(s) && Current(s).Some?
    ensures
      var a := |s.tasks|;
      var both := Upload(Upload(s, dataA, mdA, initialA), dataB, mdB, initialB);
      var failed := TaskFailed(both, a, err);
      && both.uploadTask == Some(a + 1) && both.uploadError == None && both.subscribed
      && a in both.cancelled
      && failed.uploadTask == None && !failed.subscribed
      && failed.uploadError == Some(err)
      && a + 1 !in failed.cancelled
  {
  }

  /** The unexported delete helper, run while a task is held, drops the task without
      cancelling it; if that task then succeeds, its handler publishes its metadata again and
      issues a URL lookup. */
  lemma DeleteLeavesTaskRunning(s: ObjectState, final: Snapshot)
    requires Inv(s) && Current(s).Some? && s.uploadTask.Some?
    ensures
      var t := s.uploadTask.value;
      var deleted := DeleteObject(s);
      var after := TaskSucceeded(deleted, t, final);
      && deleted.uploadTask == None && deleted.metadata.value == None
      && t !in deleted.cancelled
      && after.metadata.value == Some(final.metadata)
      && UrlBinding.OwnsSlot(after.url, |s.url.requests|)
  {
  }

  /** A failed upload leaves the error recorded, no held task, and the URL and metadata
      nulled by the upload. */
  lemma FailedUploadRecordsError(
    s: ObjectState, data: Payload, md: Option<UploadMetadata>, initial: Snapshot, err: StorageError)
    requires Current(s).Some?
    ensures
      var failed := TaskFailed(Upload(s, data, md, initial), |s.tasks|, err);
      && failed.uploadError == Some(err) && failed.uploadTask == None && !failed.subscribed
      && failed.url.value == None && failed.metadata.value == None
      && failed.snapshot == Some(initial)
  {
  }

  /** A successful upload publishes the final snapshot's metadata and leaves the URL to a new
      lookup of the same reference, which owns the URL promise cell. */
  lemma SucceededUploadRefreshesUrl(
    s: ObjectState, data: Payload, md: Option<UploadMetadata>, initial: Snapshot, final: Snapshot)
    requires Current(s).Some?
    ensures
      var done := TaskSucceeded(Upload(s, data, md, initial), |s.tasks|, final);
      && done.metadata.value == Some(final.metadata)
      && done.url.value == None
      && done.url.requests == s.url.requests + [Current(s).value]
      && UrlBinding.OwnsSlot(done.url, |s.url.requests|)
      && done.uploadTask == None && done.uploadError == None
  {
  }

  /** Only the held task is unique, not the running one: after two uploads and a failure
      reported by the cancelled first task, a third upload holds a new task while the second
      was never cancelled, so two transport tasks run at once. */
  lemma ThirdUploadLeavesSecondRunning(
    s: ObjectState, dataA: Payload, mdA: Option<UploadMetadata>, initialA: Snapshot,
    dataB: Payload, mdB: Option<UploadMetadata>, initialB: Snapshot, err: StorageError,
    dataC: Payload, mdC: Option<UploadMetadata>, initialC: Snapshot)
    requires Inv(s) && Current(s).Some?
    ensures
      var a := |s.tasks|;
      var both := Upload(Upload(s, dataA, mdA, initialA), dataB, mdB, initialB);
      var third := Upload(TaskFailed(both, a, err), dataC, mdC, initialC);
      && third.uploadTask == Some(a + 2)
      && a in third.cancelled
      && a + 1 !in third.cancelled
      && third.uploadError == None
  {
  }

  /** Writing a new reference object for the same bucket and path into the watched cell is a
      change for Vue: all three watchers run, so two lookups and two reads of the new object
      are issued and the newest of each owns its promise cell. */
  lemma NewObjectForSamePathRefreshes(s: ObjectState, r: StorageRef, identity: nat)
    requires s.source == Watched(Some(r)) && identity != r.identity
    ensures
      var r' := StorageRef(identity, r.bucket, r.fullPath);
      var s' := ChangeReference(s, Some(r'));
      && s'.url.requests == s.url.requests + [r', r']
      && s'.metadata.requests
           == s.metadata.requests
              + [MetadataBinding.GetMetadata(r'), MetadataBinding.GetMetadata(r')]
      && UrlBinding.OwnsSlot(s'.url, |s.url.requests| + 1)
      && MetadataBinding.OwnsSlot(s'.metadata, |s.metadata.requests| + 1)
      && s' != s
  {
  }
}
