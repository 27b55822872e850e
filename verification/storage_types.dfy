/** The values the storage composables pass around. The storage transport itself is not
    modelled: its results only enter the model as arguments of completion events. */
module StorageTypes {
  import opened Wrappers

  /** A resolved download URL. */
  type Url = string

  /** Identifies one transport request of a binding: its index in that binding's request log. */
  type RequestId = nat

  /** Identifies one resumable upload task: its index in the object binding's task log. */
  type TaskId = nat

  /** The bytes handed to an upload. */
  type Payload = seq<bv8>

  /** A reference object naming a location in a storage bucket. `identity` stands for the
      JavaScript object itself and so determines its bucket and path: two reference objects
      for the same bucket and path are still different objects when their identities differ. */
  datatype StorageRef = StorageRef(identity: nat, bucket: string, fullPath: string)

  /** Whether two values of a reference cell are the same value for Vue's change test
      (`Object.is`): both absent, or the very same reference object. */
  predicate SameValue(a: Option<StorageRef>, b: Option<StorageRef>) {
    match a
    case None => b.None?
    case Some(x) => b.Some? && b.value == x
  }

  /** The metadata object the server returns for a stored object. */
  datatype FullMetadata = FullMetadata(
    fullPath: string,
    size: nat,
    contentType: Option<string>,
    customMetadata: map<string, string>)

  /** The user-settable fields a metadata update sends. */
  datatype SettableMetadata = SettableMetadata(
    cacheControl: Option<string>,
    contentDisposition: Option<string>,
    contentEncoding: Option<string>,
    contentLanguage: Option<string>,
    contentType: Option<string>,
    customMetadata: Option<map<string, string>>)

  /** The optional metadata handed to an upload. */
  datatype UploadMetadata = UploadMetadata(settable: SettableMetadata, md5Hash: Option<string>)

  /** A point-in-time progress record of an upload task. */
  datatype Snapshot = Snapshot(bytesTransferred: nat, totalBytes: nat, metadata: FullMetadata)

  /** The error an upload task fails with. */
  datatype StorageError = StorageError(code: string, message: string)

  /** The content of a binding's `promise` cell: the already-resolved `Promise.resolve(null)`,
      or the promise chained on the transport request with the given id. */
  datatype PromiseSlot = NullPromise | RequestPromise(request: RequestId)

  /** Whether the promise cell `p` of a binding that has issued `issued` requests is the
      resolved null promise or belongs to the newest of those requests. */
  predicate SlotHoldsNewest(p: PromiseSlot, issued: nat) {
    match p
    case NullPromise => true
    case RequestPromise(id) => id + 1 == issued
  }

  /** The reference a binding is created with: a plain value that never changes, or a
      reactive cell whose value can be replaced later (and is then watched). */
  datatype Source = Fixed(ref: Option<StorageRef>) | Watched(ref: Option<StorageRef>)
}
