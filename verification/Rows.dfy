/** The tables behind the durable task protocol (src/backend/app/db/models.py), as values.
  *
  * Times are whole seconds. Every uuid4() is one number drawn from the supply `Db.next`, so an
  * identifier is new exactly when it is at least `next`. Hashes are injective, so rows hold what
  * was hashed. An outbox event is keyed by its task (the table's unique constraint).
  */
module Rows {
  import opened Wrappers

  type UserId = nat
  type TaskId = nat
  type Token = nat
  type Ref = nat
  type OpId = nat
  type Time = int
  type Content = string
  type Draft = string
  type Version = nat

  datatype Kind = Extraction | Embedding

  datatype TaskState = Pending | Processing | RetryWait | Succeeded | Failed | Cancelled

  /** task_key: the upload reference, `save:{operation}` or `retry:{operation}`. */
  datatype TaskKey = Upload(ref: Ref) | SaveKey(op: OpId) | RetryKey(op: OpId)

  datatype FailureCode = AttemptsExhausted | StaleRevision | CancelledByOwner | TaskExpired | HandlerCode(name: nat)

  datatype Task = Task(
    owner: UserId, kind: Kind, key: TaskKey, revision: nat, payload: Option<Ref>,
    result: Option<Draft>, expires: Option<Time>, state: TaskState, attempts: nat, maxAttempts: nat,
    available: Time, token: Option<Token>, leaseEnd: Option<Time>, failure: Option<FailureCode>, created: Time)

  datatype EventState = EventPending | Claimed | Sent | EventCancelled

  datatype Event = Event(state: EventState, attempts: nat, available: Time, token: Option<Token>,
                         leaseEnd: Option<Time>, created: Time)

  datatype Profile = Profile(revision: nat, content: Content, version: Version)

  /** The position, text and vector of one chunk, as the embedding handler returns it. */
  datatype ChunkBody = ChunkBody(section: nat, entry: nat, index: nat, text: string, vector: seq<real>)

  datatype Chunk = Chunk(revision: nat, version: Version, body: ChunkBody)

  /** What _payload_hash digests. */
  datatype Payload = Payload(expected: nat, content: Content, extraction: Option<TaskId>, version: Version)

  datatype OpState = OpProcessing | OpSucceeded | OpFailed

  datatype OpFailure = ReviewFailure | ConflictFailure | OtherFailure

  datatype Operation = Operation(payload: Payload, state: OpState, result: Option<nat>,
                                 failure: Option<OpFailure>, expires: Time)

  datatype Db = Db(
    users: map<UserId, nat>,                       // resume_revision
    profiles: map<UserId, Profile>,
    chunks: map<UserId, seq<Chunk>>,
    tasks: map<TaskId, Task>,
    events: map<TaskId, Event>,
    ops: map<(UserId, OpId), Operation>,
    next: nat)

  predicate Live(t: Task) {
    t.state == Pending || t.state == Processing || t.state == RetryWait
  }

  function EmptyDb(): Db {
    Db(map[], map[], map[], map[], map[], map[], 0)
  }
}
