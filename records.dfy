/** The documents of the shared `vapor_queue` collection: the job status enum
    and the job record (`MongoJobStatus` and `MongoJob` in the driver). */
module Records {

  datatype Option<+T> = None | Some(value: T)

  datatype Result<+T, +E> = Success(value: T) | Failure(error: E)

  datatype Outcome<+E> = Pass | Fail(error: E)

  /** A job's state; stored as its raw string value. */
  datatype Status = Ready | Processing | Completed {
    function Raw(): string {
      match this
      case Ready => "ready"
      case Processing => "processing"
      case Completed => "completed"
    }
  }

  /** Decoding a stored status string, as the string-backed enum does: the
      three raw values are accepted and anything else is a decoding error. */
  function ParseStatus(raw: string): (r: Option<Status>)
    ensures r.Some? ==> r.value.Raw() == raw
    ensures r.None? ==> forall s: Status :: s.Raw() != raw
  {
    if raw == "ready" then Some(Ready)
    else if raw == "processing" then Some(Processing)
    else if raw == "completed" then Some(Completed)
    else None
  }

  /** Encoding a status and decoding it again gives the status back. */
  lemma StatusRoundTrip(s: Status)
    ensures ParseStatus(s.Raw()) == Some(s)
  {
  }

  /** The three raw values are pairwise distinct, so a filter on the raw
      string selects exactly one status. */
  lemma RawValuesDistinct(a: Status, b: Status)
    ensures a.Raw() == b.Raw() <==> a == b
  {
  }

  /** One document: status, job identifier, logical queue name, the opaque
      payload `D` and the creation time (an integer clock reading). */
  datatype Job<D> = Job(status: Status, jobid: string, queue: string, data: D, created: int)
}
