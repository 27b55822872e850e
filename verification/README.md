# Storage composables of vuefire: a Dafny model

This project models the state machine behind vuefire's three Cloud Storage composables in
`src/storage/index.ts`:

- `useStorageUrl` publishes a download URL.
- `useStorageMetadata` publishes metadata and lets the caller update it.
- `useStorageObject` composes the two and adds an upload lifecycle: the held task, its
  progress snapshot, the upload error and the progress subscription.

Vue's reactive cells become one immutable state record per binding. Each consumer call and
each transport completion is a pure transition function over that record.

- `UrlBinding`, `MetadataBinding`: the published value, the `promise` cell and a log of the
  requests sent to the transport. A request's id is its index in that log.
- `ObjectBinding`: the object binding's record (`ObjectState`) and the following transitions:
  - the operations `useStorageObject` returns to its callers: `Upload`, `Refresh`,
    `UpdateMetadata`;
  - `DeleteObject`, which models the `_deleteObject` helper. The helper is defined in the
    composable but is not in the object it returns (lines 269-282), so no caller can reach
    it. The traces in `ObjectRuns` still include it. This only widens the set of traces the
    invariant is proved over. The scenario about it describes the helper as written;
  - the watcher on the reference: `ChangeReference`;
  - the completion events: `UrlResolved`, `MetadataResolved`, `TaskProgress`,
    `TaskSucceeded`, `TaskFailed`.

  It also defines the invariant `Inv`:
  - at most one task is held; it is the newest task and has not been cancelled;
  - a progress listener is registered exactly while a task is held;
  - no task is cancelled twice;
  - each promise cell belongs to its binding's newest request.
- `ObjectRuns`: traces of actions, and the inductive proof that every state reachable from
  construction satisfies `Inv`.
- `ObjectScenarios`: what several steps in a row lead to, such as two uploads in a row, a
  delete during an upload, or a late lookup after the reference becomes null.

A reference is a `StorageRef` with an `identity` field, which stands for the JavaScript object
itself. Two reference objects for the same bucket and path are different objects when their
identities differ.

As in the code, completion handlers do not check the identity of their request or task:

- A late lookup still publishes its URL.
- A failure reported by an old, cancelled task still nulls the held task and records its error.

The reference is a tagged `Source`: `Fixed` for a plain value, `Watched` for a reactive cell.
Only a `Watched` reference can change. A change runs three watchers in the order they were
registered:

1. the URL binding's watcher (line 75);
2. the metadata binding's watcher (line 145);
3. the object binding's own watcher (line 251).

So each refresh runs twice. Vue runs the watchers only when the new value differs from the
old one by `Object.is`. The model compares references by `identity`, so writing back the
same reference object is a no-op. Writing a new object for the same path runs all three
watchers (`ObjectScenarios.NewObjectForSamePathRefreshes`).

In several places the code does less than a caller might expect. The model follows the code:

- **Stale writes.** A caller might expect the URL and metadata to stay null once the
  reference is null. But a lookup issued before the reference became null still publishes
  when it resolves (`ObjectScenarios.LateLookupOutlivesNullReference`).
- **Cancelled tasks.** A caller might expect a cancelled task to have no further effect. But
  its completion handlers carry no guard. A failure reported by a cancelled task nulls the
  newer held task and removes that task's progress listener
  (`ObjectScenarios.CancelledTaskFailureDropsNewerUpload`).
- **Running tasks.** At most one task is *held*, but more than one can be *running*. After
  two uploads, a failure of the cancelled first task drops the second task without
  cancelling it. A third upload then holds a new task while the second is still running
  (`ObjectScenarios.ThirdUploadLeavesSecondRunning`). `Inv` therefore promises only that at
  most one task is held, not that uploads are single-flight.
- **Watcher order.** On a change to null, the inherited URL and metadata watchers run before
  the object's own watcher cancels the task. The end state is the same as if the
  cancellation came first.

## Model

| member | source | states |
|---|---|---|
| `UrlBinding.Refresh` | src/storage/index.ts:61-71 | With no reference, the URL becomes null and the promise cell holds the resolved null promise. With a reference, the value is kept, one lookup of that reference is issued, and it owns the promise cell. |
| `UrlBinding.Create` | src/storage/index.ts:51-73 | The binding starts from the hydrated value and refreshes once. With no reference it publishes null and issues no request. |
| `UrlBinding.Resolve` | src/storage/index.ts:64-66 | A resolved lookup publishes its URL whether or not it still owns the promise cell. The promise cell and the request log do not change. |
| `UrlBinding.StaleResolutionWins` | src/storage/index.ts:61-71 | If two lookups resolve in reverse order, the older URL stays published while the newer lookup keeps the promise cell. The last call owns the handle, not the value. |
| `UrlBinding.RefreshTwiceLikeOnce` | src/storage/index.ts:73-76 | A second refresh in a row publishes what one refresh did. Its only extra effect is one more lookup, and that lookup owns the promise cell. |
| `UrlBinding.StableRefreshAgrees` | src/storage/index.ts:61-71 | If two refreshes of one reference get the same answer, that URL ends up published in either order of resolution. |
| `MetadataBinding.Refresh` | src/storage/index.ts:117-127 | With no reference, the metadata becomes null and the promise cell holds the resolved null promise. With a reference, the value is kept and a metadata read is issued; the read owns the promise cell. |
| `MetadataBinding.Update` | src/storage/index.ts:129-141 | With no reference nothing changes. With a reference, an update carrying the caller's fields owns the promise cell, and the value is left to its resolution. |
| `MetadataBinding.Create` | src/storage/index.ts:102-146 | The hydrated value is used only when a reference is present. Then the binding refreshes once. |
| `MetadataBinding.Resolve` | src/storage/index.ts:119-136 | A resolved read or update publishes the server's metadata whether or not it still owns the promise cell. The promise cell does not change. |
| `MetadataBinding.UpdatePublishesServerMetadata` | src/storage/index.ts:129-141 | After an update resolves, the published value is the server's object. It is the same whatever fields the caller sent. |
| `MetadataBinding.StaleReadOverwritesUpdate` | src/storage/index.ts:117-141 | A read that resolves after a later update overwrites the update's result, while the update keeps the promise cell. |
| `MetadataBinding.RefreshTwiceLikeOnce` | src/storage/index.ts:143-146 | A second refresh in a row publishes what one refresh did, and the newest read owns the promise cell. |
| `ObjectBinding.Progress` | src/storage/index.ts:182-185 | Upload progress is present exactly when a snapshot is held. It is made from that snapshot's transferred and total byte counts. |
| `ObjectBinding.Create` | src/storage/index.ts:168-188 | The object binding composes the two bindings' construction. It starts with no task, snapshot, error or listener, and satisfies the invariant. |
| `ObjectBinding.Refresh` | src/storage/index.ts:246-248 | Refreshes the URL and the metadata against the current reference. The upload fields do not change. |
| `ObjectBinding.UpdateMetadata` | src/storage/index.ts:172-176 | Delegates to the metadata update. With no reference the whole state is unchanged. |
| `ObjectBinding.CancelAndClear` | src/storage/index.ts:194-207 | Cancels the held task, if any, by appending it to the cancel log. Nulls the error, snapshot, held task, URL and metadata, and removes the listener. Promise cells and request logs do not change. |
| `ObjectBinding.Upload` | src/storage/index.ts:190-232 | Cancels and clears first. With no reference, the cleared state stands. With a reference, the new task is held with its initial snapshot and a registered listener. The invariant is kept. |
| `ObjectBinding.DeleteObject` | src/storage/index.ts:234-244 | The unexported helper. With a reference: the delete is sent, and the metadata, URL, snapshot and held task are nulled and the listener is removed. Nothing is cancelled and the error is kept. With no reference: a no-op. |
| `ObjectBinding.DropTask` | src/storage/index.ts:252-259 | If a task is held, cancels it and removes the listener. The held task and the snapshot become null. |
| `ObjectBinding.ChangeReference` | src/storage/index.ts:250-261 | The same value by `Object.is` (the same reference object, or null again): a no-op. Null: URL and metadata become null with null promises, and the held task is cancelled and dropped. Another reference: two lookups and two reads of it are issued, the newest of each owns its cell, and no task is cancelled. |
| `ObjectBinding.UrlResolved` | src/storage/index.ts:64-66 | A resolved lookup publishes its URL without a staleness check. The upload fields and the metadata do not change. |
| `ObjectBinding.MetadataResolved` | src/storage/index.ts:120-122 | A resolved read or update publishes its metadata without a staleness check. Nothing else changes. |
| `ObjectBinding.TaskProgress` | src/storage/index.ts:214-216 | A progress event reaches only the registered listener of the newest task. It replaces the snapshot, so progress is present. |
| `ObjectBinding.TaskSucceeded` | src/storage/index.ts:218-224 | For any task: nulls the held task, removes the listener and publishes the final metadata. Issues a URL refresh. The snapshot and the error are kept. |
| `ObjectBinding.TaskFailed` | src/storage/index.ts:226-230 | For any task: removes the listener, nulls the held task and records the error. The URL, metadata and snapshot do not change. |
| `ObjectRuns.StepKeepsInv` | src/storage/index.ts:190-261 | Every enabled operation or completion keeps the invariant. |
| `ObjectRuns.RunKeepsInv` | src/storage/index.ts:190-261 | Every valid trace of operations and completions keeps the invariant (proof by induction on the trace). |
| `ObjectRuns.ReachableStatesKeepInv` | src/storage/index.ts:168-261 | In every reachable state, at most one task is held (not: at most one is running), it is the newest and not cancelled, and the listener is registered exactly while it is held. |
| `ObjectRuns.ProgressOnlyForHeldTask` | src/storage/index.ts:209-216 | Under the invariant, a progress event is possible exactly for the held task. While a task is held, progress is present. |
| `ObjectRuns.HeldTaskNotCancelled` | src/storage/index.ts:195-211 | Under the invariant, the held task is not in the cancel log and no task appears in it twice. |
| `ObjectScenarios.NullReferenceClearsState` | src/storage/index.ts:250-261 | After a change to null, the URL, metadata, held task and progress are null. The task that was held is cancelled. |
| `ObjectScenarios.LateLookupOutlivesNullReference` | src/storage/index.ts:61-75 | After the reference becomes null, a lookup issued earlier still publishes a URL. |
| `ObjectScenarios.CancelledTaskFailureDropsNewerUpload` | src/storage/index.ts:190-232 | Two uploads cancel the first task and hold the second, with no error. A later failure of the first task drops the second task, which is then neither held nor cancelled. |
| `ObjectScenarios.DeleteLeavesTaskRunning` | src/storage/index.ts:218-244 | The unexported delete helper, run during an upload drops the task without cancelling it. If that task later succeeds, its metadata is published again. |
| `ObjectScenarios.ThirdUploadLeavesSecondRunning` | src/storage/index.ts:190-232 | After two uploads and a failure of the cancelled first task, a third upload holds a new task. The second task was never cancelled, so two tasks run at once. |
| `ObjectScenarios.NewObjectForSamePathRefreshes` | src/storage/index.ts:250-261 | A new reference object for the same bucket and path is a change: two lookups and two metadata reads of the new object are issued, and the newest lookup and the newest read own their promise cells. |
| `ObjectScenarios.FailedUploadRecordsError` | src/storage/index.ts:190-230 | A failed upload leaves the error recorded and no held task. The URL and metadata stay null. |
| `ObjectScenarios.SucceededUploadRefreshesUrl` | src/storage/index.ts:209-224 | A successful upload publishes the final metadata. A new lookup of the same reference owns the URL promise cell. |

## Left out

- `useStorage` (lines 39-41): a lookup of the Firebase app. It has no state.
- Hydration and server rendering (`getInitialValue`, `addPendingPromise`, `onServerPrefetch`,
  `onScopeDispose`): these helpers are not part of this model. The value the registry would
  supply is a construction parameter (`seededUrl`, `seededMetadata`). Registering pending
  promises and tearing down the scope are not modelled.
- The storage transport (`getDownloadURL`, `getMetadata`, `updateMetadata`,
  `uploadBytesResumable`, `deleteObject`). Requests appear only as entries in request logs,
  and their outcomes only as completion events. The transport's own semantics are not
  modelled. For example, the model does not decide whether a cancelled task's promise rejects.
  Success and failure events are therefore allowed for every created task, cancelled or not.
- Settling at most once: a request or task may settle any number of times in a trace. This
  only widens the set of traces that the invariant is proved over.
- A rejected URL or metadata request writes nothing, so it is the identity step in
  `ObjectRuns.Step`. The rejection travelling to whoever awaits the promise is not modelled.
- `ObjectBinding.Progress`: returns the two operands of `bytesTransferred / totalBytes`
  instead of the floating-point quotient. It does not model division by a zero total.
- Snapshot bounds (`0 <= bytesTransferred <= totalBytes`): snapshots are taken as the
  transport delivers them.
- Scope teardown: line 266 registers `onScopeDispose(unsub)` with the value `unsub` has at
  construction, which is the no-op. Teardown therefore never removes a later task's progress
  listener. Scope teardown is not modelled.
- Vue's `Object.is` tells `null` from `undefined`. Both are `None` here, so replacing one
  with the other is a no-op in the model.
- Vue's scheduling: several writes to the watched reference within one tick are modelled as
  separate changes. The timing of promises and `Promise.all` is not modelled either.
- Standalone `useStorageUrl` and `useStorageMetadata` with a watched reference: their watcher
  is their `Refresh` run with the new reference. It appears only inside
  `ObjectBinding.ChangeReference`.
