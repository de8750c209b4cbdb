/** `MongoQueue`: one logical queue over the shared collection. Each operation
    is a single call on the collection with the filter, update and sort order
    the driver writes out; the functions below give the effect of each call on
    the sequence of documents, and the class methods are proved against them. */
module Queue {
  import opened Records
  import opened Store

  datatype QueuesMongoError = MissingJob

  /** The filter of `get` and `clear`: this job, this queue, status processing. */
  function ProcessingFilter(id: string, q: string): Filter {
    Filter(Some(id), q, Processing.Raw())
  }

  /** The filter of `pop`, with the status written as a literal string. */
  function ReadyFilter(q: string): Filter {
    Filter(None, q, "ready")
  }

  /** The filter of `push`, with the status written as a literal string. */
  function PushFilter(id: string, q: string): Filter {
    Filter(Some(id), q, "processing")
  }

  /** The literal status strings of `pop` and `push` are the raw values of the
      enum, so the `pop` filter selects exactly the ready records of the queue
      and the `push` filter is the `get`/`clear` filter. */
  lemma FilterLiterals<D>(j: Job<D>, id: string, q: string)
    ensures Matches(j, ReadyFilter(q)) <==> j.queue == q && j.status == Ready
    ensures PushFilter(id, q) == ProcessingFilter(id, q)
    ensures Matches(j, ProcessingFilter(id, q)) <==> j.jobid == id && j.queue == q && j.status == Processing
  {
  }

  /** The effect of `set`: a new ready record stamped `now` is appended, or,
      when the unique index already holds (id, q), the insert is refused. */
  function Enqueued<D>(jobs: seq<Job<D>>, id: string, q: string, data: D, now: int): Option<seq<Job<D>>> {
    if HasKey(jobs, id, q) then None else Some(jobs + [Job(Ready, id, q, data, now)])
  }

  /** Record i is one `pop` on queue q may claim: a ready record of q with no
      older ready record of q (ties left open). */
  predicate Claimable<D>(jobs: seq<Job<D>>, q: string, i: int) {
    Selectable(jobs, ReadyFilter(q), true, i)
  }

  /** The effect of `pop` once it has picked record i. */
  function Claimed<D>(jobs: seq<Job<D>>, i: int): seq<Job<D>>
    requires 0 <= i < |jobs|
  {
    jobs[i := Apply(jobs[i], SetFields(Processing, None))]
  }

  /** The effect of `clear`. */
  function Cleared<D>(jobs: seq<Job<D>>, id: string, q: string): seq<Job<D>> {
    ModifyFirst(jobs, ProcessingFilter(id, q), SetFields(Completed, None))
  }

  /** The effect of `push` at time `now`. */
  function Released<D>(jobs: seq<Job<D>>, id: string, q: string, now: int): seq<Job<D>> {
    ModifyFirst(jobs, PushFilter(id, q), SetFields(Ready, Some(now)))
  }

  class MongoQueue<D> {
    /** The queue name taken from the queue context. */
    const queueName: string
    /** The shared `vapor_queue` collection. */
    const mongodb: Collection<D>

    constructor (queueName: string, mongodb: Collection<D>)
      ensures this.queueName == queueName && this.mongodb == mongodb
    {
      this.queueName := queueName;
      this.mongodb := mongodb;
    }

    /** `get`: the payload of this queue's processing record for `id`;
        `missingJob` when there is none (the job is ready, completed or
        unknown). Reads only. */
    method Get(id: string) returns (r: Result<D, QueuesMongoError>)
      ensures r.Failure? <==> !AnyMatch(mongodb.documents, ProcessingFilter(id, queueName))
      ensures r.Failure? ==> r.error == MissingJob
      ensures r.Success? ==> exists i :: 0 <= i < |mongodb.documents|
                                      && mongodb.documents[i].jobid == id
                                      && mongodb.documents[i].queue == queueName
                                      && mongodb.documents[i].status == Processing
                                      && mongodb.documents[i].data == r.value
    {
      var job := mongodb.FindOne(ProcessingFilter(id, queueName));
      if job.Some? {
        r := Success(job.value.data);
      } else {
        r := Failure(MissingJob);
      }
    }

    /** `set`: inserts a ready record for `id` stamped `now`; the unique
        index refuses it when (id, queue) is already present in any status. */
    method Set(id: string, data: D, now: int) returns (r: Outcome<StoreError>)
      requires mongodb.Valid()
      modifies mongodb
      ensures mongodb.Valid()
      ensures r.Fail? <==> Enqueued(old(mongodb.documents), id, queueName, data, now).None?
      ensures r.Fail? ==> r.error == DuplicateKey && mongodb.documents == old(mongodb.documents)
      ensures r.Pass? ==> Enqueued(old(mongodb.documents), id, queueName, data, now) == Some(mongodb.documents)
    {
      var job := Job(Ready, id, queueName, data, now);
      r := mongodb.Insert(job);
    }

    /** `clear`: marks this queue's processing record for `id` completed;
        when nothing matches, nothing changes and no error is raised. */
    method Clear(id: string)
      requires mongodb.Valid()
      modifies mongodb
      ensures mongodb.Valid()
      ensures mongodb.documents == Cleared(old(mongodb.documents), id, queueName)
    {
      ghost var before := mongodb.documents;
      var reply := mongodb.FindAndModify(ProcessingFilter(id, queueName), SetFields(Completed, None), false);
      if reply.Some? {
        ghost var i :| Selectable(before, ProcessingFilter(id, queueName), false, i)
              && mongodb.documents == before[i := Apply(before[i], SetFields(Completed, None))];
        SelectedIsFirst(before, ProcessingFilter(id, queueName), false, SetFields(Completed, None), i);
      }
    }

    /** `pop`: claims the oldest ready record of this queue, marking it
        processing, and returns its job id; none when the queue has no ready
        record, in which case nothing changes. */
    method Pop() returns (r: Option<string>)
      requires mongodb.Valid()
      modifies mongodb
      ensures mongodb.Valid()
      ensures r.None? <==> !AnyMatch(old(mongodb.documents), ReadyFilter(queueName))
      ensures r.None? ==> mongodb.documents == old(mongodb.documents)
      ensures r.Some? ==> exists i :: Claimable(old(mongodb.documents), queueName, i)
                                   && mongodb.documents == Claimed(old(mongodb.documents), i)
                                   && r.value == old(mongodb.documents)[i].jobid
    {
      var reply := mongodb.FindAndModify(ReadyFilter(queueName), SetFields(Processing, None), true);
      if reply.Some? {
        r := Some(reply.value.jobid);
      } else {
        r := None;
      }
    }

    /** `push`: returns this queue's processing record for `id` to ready and
        restamps it with `now`, moving it behind older ready records; the
        reply is discarded, so when nothing matches nothing changes. */
    method Push(id: string, now: int)
      requires mongodb.Valid()
      modifies mongodb
      ensures mongodb.Valid()
      ensures mongodb.documents == Released(old(mongodb.documents), id, queueName, now)
    {
      ghost var before := mongodb.documents;
      var reply := mongodb.FindAndModify(PushFilter(id, queueName), SetFields(Ready, Some(now)), false);
      if reply.Some? {
        ghost var i :| Selectable(before, PushFilter(id, queueName), false, i)
              && mongodb.documents == before[i := Apply(before[i], SetFields(Ready, Some(now)))];
        SelectedIsFirst(before, PushFilter(id, queueName), false, SetFields(Ready, Some(now)), i);
      }
    }
  }
}
