# queues-mongo-driver: the job table as a verified state machine

This project models the MongoDB driver for Vapor's Queues. Every logical queue
keeps its jobs in one shared collection, `vapor_queue`. Each document holds a
`status` (ready, processing or completed), a `jobid`, a `queue` name, the
opaque job `data` and a `created` time. A unique index on `(jobid, queue)`
guards the collection. A `MongoQueue` bound to one queue name offers five
operations, and each one is a single atomic call on the collection:

- `set` inserts a new ready document.
- `pop` claims the oldest ready document of the queue with a sorted
  `findAndModify` that marks it processing.
- `get` reads the data of the queue's processing document for a job id.
- `clear` marks that processing document completed.
- `push` returns it to ready and restamps `created`, which sends it to the
  back of the queue.

The Dafny model has five modules:

- `Records` holds the status enum with its raw strings and the job record.
- `Store` holds filters, `$set` updates and the collection. The `Collection`
  class has `Insert`, `FindOne` and `FindAndModify` methods, and its
  invariant `Valid()` is the unique index.
- `Queue` gives the effect of each operation as a function on the document
  sequence. Its `MongoQueue` class has one method per operation, and each
  method is proved against those functions.
- `Protocol` treats the calls as steps of a sequential state machine. It
  proves the claim, complete and release rules, the FIFO order, the
  requeue order, that other queues are untouched, and that the index holds
  in every history.
- `Scenarios` has client methods that follow jobs through their lives using
  only the contracts.

Two behaviours of the driver that a reader might not expect:

- A `clear` that matches nothing is not an error. The driver checks only
  `reply.ok` and never `reply.value`, so completing a job twice succeeds
  silently (`Protocol.ClearIsIdempotent`, `Scenarios.CompleteTwice`).
- The unique index has no status key. So `set` is refused for any
  `(jobid, queue)` that is already present, even a completed one
  (`Protocol.EnqueueEffect`, `Scenarios.FetchUnclaimed`).

Two `findAndModify` details:

- When a call sorts on `created`, ties are broken in no particular order. The
  model keeps this nondeterministic (`Store.Selectable`).
- Without a sort the call may pick any matching document. Every such filter
  in the driver names a job id, so under the unique index at most one
  document matches, and the effect is a single function (`Store.ModifyFirst`).

## Model

| member | source | states |
|---|---|---|
| `Records.ParseStatus` | Sources/QueuesMongoDriver/Queues.swift:185-192 | decoding a status string yields a status whose raw value is that string, and fails for any string that is no status's raw value |
| `Records.StatusRoundTrip` | Sources/QueuesMongoDriver/Queues.swift:185-192 | decoding the raw value of a status gives that status back |
| `Records.RawValuesDistinct` | Sources/QueuesMongoDriver/Queues.swift:185-192 | two statuses have the same raw string exactly when they are equal |
| `Store.FirstMatch` | Sources/QueuesMongoDriver/Queues.swift:83-92 | returns none exactly when no document matches the filter, otherwise the index of a matching document with no match before it |
| `Store.OldestMatchExists` | Sources/QueuesMongoDriver/Queues.swift:106-119 | when some document matches, one matching document has a `created` no later than every other match, so the sorted call always has a candidate |
| `Store.KeyFilterMatchesOnce` | Sources/QueuesMongoDriver/Queues.swift:11-12 | under the unique index, a filter naming a job id matches at most one document |
| `Store.SelectedIsFirst` | Sources/QueuesMongoDriver/Queues.swift:135-149 | under the unique index, whichever match a key-selecting `findAndModify` picks, the result is the one `ModifyFirst` describes |
| `Store.ModifyFirstEffect` | Sources/QueuesMongoDriver/Queues.swift:83-92 | under the unique index, a key-selecting update changes exactly the matching documents and leaves all others as they were |
| `Store.UpdateKeepsKeys` | Sources/QueuesMongoDriver/Queues.swift:11-12 | a `$set` of status or created keeps every `(jobid, queue)` pair distinct |
| `Store.InsertKeepsKeys` | Sources/QueuesMongoDriver/Queues.swift:11-12 | appending a document whose `(jobid, queue)` is new keeps the index valid |
| `Store.Collection.constructor` | Sources/QueuesMongoDriver/Queues.swift:6-15 | the collection starts empty with its unique index in force |
| `Store.Collection.Insert` | Sources/QueuesMongoDriver/Queues.swift:70 | fails with a duplicate key, leaving the collection unchanged, exactly when `(jobid, queue)` is already present; otherwise appends the document |
| `Store.Collection.FindOne` | Sources/QueuesMongoDriver/Queues.swift:42-47 | returns none exactly when nothing matches, otherwise a document of the collection that matches |
| `Store.Collection.FindAndModify` | Sources/QueuesMongoDriver/Queues.swift:106-119 | with no match nothing changes; otherwise one matching document (the oldest by `created` when sorted) receives the update, every other document is unchanged, and the modified document is returned |
| `Queue.FilterLiterals` | Sources/QueuesMongoDriver/Queues.swift:109 | the literal `"ready"` of `pop` selects exactly the ready documents of the queue, and the literal `"processing"` of `push` gives the same filter as the raw value used by `get` and `clear` |
| `Queue.MongoQueue.constructor` | Sources/QueuesMongoDriver/Queues.swift:34-37 | the queue is bound to its name and to the shared collection |
| `Queue.MongoQueue.Get` | Sources/QueuesMongoDriver/Queues.swift:39-55 | fails with `missingJob` exactly when the queue has no processing document for the id; otherwise returns the data of such a document; never changes the collection |
| `Queue.MongoQueue.Set` | Sources/QueuesMongoDriver/Queues.swift:57-77 | appends one ready document with the given id, queue, data and time, or fails with a duplicate key and changes nothing when `(id, queue)` exists in any status |
| `Queue.MongoQueue.Clear` | Sources/QueuesMongoDriver/Queues.swift:80-99 | the collection becomes `Cleared` of the old one: the matching processing document, if any, is completed |
| `Queue.MongoQueue.Pop` | Sources/QueuesMongoDriver/Queues.swift:102-129 | returns none, changing nothing, exactly when the queue has no ready document; otherwise marks one oldest ready document processing, changes nothing else and returns its job id |
| `Queue.MongoQueue.Push` | Sources/QueuesMongoDriver/Queues.swift:131-154 | the collection becomes `Released` of the old one: the matching processing document, if any, is ready again with `created` set to the new time |
| `Protocol.EnqueueEffect` | Sources/QueuesMongoDriver/Queues.swift:57-77 | `set` is refused exactly when a document with this `(jobid, queue)` exists, whatever its status; otherwise it keeps all documents, appends one ready document with the given fields, and the index still holds |
| `Protocol.ClaimEffect` | Sources/QueuesMongoDriver/Queues.swift:102-125 | a claim picks a ready document of the queue no younger than any other ready one, makes only it processing with its other fields kept, and keeps the index |
| `Protocol.ClaimedJobIsFetchable` | Sources/QueuesMongoDriver/Queues.swift:39-55 | after a claim, `get` on the claimed id finds a match, and every match carries the claimed job's data |
| `Protocol.UnclaimedJobIsMissing` | Sources/QueuesMongoDriver/Queues.swift:39-55 | a job whose document is ready or completed has no processing match, so `get` fails with `missingJob` |
| `Protocol.ClearEffect` | Sources/QueuesMongoDriver/Queues.swift:80-99 | `clear` completes exactly the processing document of `(id, queue)`, keeps its other fields, changes no other document, changes nothing when none matches, and keeps the index |
| `Protocol.ClearIsIdempotent` | Sources/QueuesMongoDriver/Queues.swift:93-96 | a second `clear` of the same job leaves the collection as the first one left it |
| `Protocol.ReleaseEffect` | Sources/QueuesMongoDriver/Queues.swift:131-154 | `push` turns exactly the processing document of `(id, queue)` back to ready with `created` set to the push time, changes no other document, changes nothing when none matches, and keeps the index |
| `Protocol.RunState` | Sources/QueuesMongoDriver/Queues.swift:106-119 | along a run of pops every document keeps its fields, and it is processing exactly when it has been claimed in the run |
| `Protocol.OlderReadyClaimedFirst` | Sources/QueuesMongoDriver/Queues.swift:118 | a pop never claims a document while a strictly older ready document of the same queue is still unclaimed |
| `Protocol.PopsNeverOvertakeOlder` | Sources/QueuesMongoDriver/Queues.swift:101-125 | for any creation times, successive pops claim ready documents of a queue in non-decreasing `created` order |
| `Protocol.PopsFollowCreationOrder` | Sources/QueuesMongoDriver/Queues.swift:101-125 | when the ready documents of a queue have distinct creation times, successive pops claim them in strictly increasing `created` order |
| `Protocol.PushedJobGoesToBack` | Sources/QueuesMongoDriver/Queues.swift:131-149 | after `push` at time `now`, the pops that follow claim every ready document of the queue created before `now` ahead of the pushed job |
| `Protocol.StepInvariants` | Sources/QueuesMongoDriver/Queues.swift:39-154 | one operation on queue q never rewrites `jobid`, `queue` or `data`, leaves documents of other queues untouched, adds a document (a ready one of q) only through a successful `set`, and keeps the unique index |
| `Protocol.TraceInvariant` | Sources/QueuesMongoDriver/Queues.swift:11-12 | in every history of operations from the empty collection the unique index holds, so at most one document per `(jobid, queue)` is ever processing |
| `Scenarios.CompleteTwice` | Sources/QueuesMongoDriver/Queues.swift:80-99 | enqueue, pop, get and clear of one job yield its id and data and leave it completed; a second clear raises nothing and leaves the collection as the first left it; a later get fails with `missingJob` |
| `Scenarios.ClaimInOrder` | Sources/QueuesMongoDriver/Queues.swift:102-129 | two jobs enqueued at increasing times are popped oldest first, and a third pop returns none |
| `Scenarios.RequeueGoesToBack` | Sources/QueuesMongoDriver/Queues.swift:131-154 | a popped job pushed back at a later time is popped again only after the job that was waiting |
| `Scenarios.FetchUnclaimed` | Sources/QueuesMongoDriver/Queues.swift:39-77 | get on a job that is enqueued but not claimed fails with `missingJob`, and enqueueing the same id again fails with a duplicate key |

## Left out

- The MongoKitten driver: the wire protocol and the internals of `insert`, `findOne` and `findAndModify`. Each call is modelled only through the filter, update and sort the driver passes to it.
- BSON encoding and decoding of documents (Queues.swift:66 and :124) is taken to be the identity. So the encoding failure that `set` turns into a failed future (lines 74-75) cannot arise. The status decoding rule is kept as `Records.ParseStatus`.
- Store failures are not modelled: connectivity loss and replies with `ok != 1`. The collection in the model never fails. In the driver, such a reply makes `pop` return none (line 121) and makes `clear` throw (lines 93-95).
- The event-loop promises and futures that wrap every operation. They add no behaviour beyond carrying the result or the error.
- Concurrency between worker processes. Each store call is atomic, so the calls are modelled as a sequential state machine. The concurrent single-claim scenario is therefore not stated.
- `Date()` timestamps are floating-point wall-clock readings. They become an integer `now` parameter of `Set` and `Push`, supplied by the caller.
- The Vapor glue: the `.mongodb` provider (lines 18-24), `MongoQueuesDriver` with `makeQueue` and `shutdown` (lines 157-170), and the I/O of `setupMongo` (lines 6-15). Only the index's uniqueness rule is kept.
- The `JobData` payload is a type parameter `D`. Its contents are never inspected.
- `push` calls `findAndModify` without asking for the modified document. The reply is discarded, so the model's `FindAndModify` returning the modified document makes no difference.
- Protocol.PushedJobGoesToBack: only documents created strictly before the push time are guaranteed to be claimed first. A document whose `created` equals the push time ties with the pushed job, and the sort leaves ties in no particular order.
- Protocol.PopsFollowCreationOrder: the strictly increasing order is stated only for ready documents with distinct creation times, because equal times have no defined order; `Protocol.PopsNeverOvertakeOlder` gives the non-decreasing order for all inputs.
