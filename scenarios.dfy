/** Clients of `MongoQueue` that follow a job through its life on a fresh
    collection, using only the methods' contracts and the protocol lemmas. */
module Scenarios {
  import opened Records
  import opened Store
  import opened Queue
  import opened Protocol

  /** Enqueue, claim, fetch and complete one job, then complete it again:
      the second `clear` neither fails nor changes anything, and the
      completed job can no longer be fetched. */
  method CompleteTwice<D>(c: Collection<D>, payload: D)
    returns (claimed: Option<string>, fetched: Result<D, QueuesMongoError>, refetched: Result<D, QueuesMongoError>,
             ghost afterFirst: seq<Job<D>>)
    requires c.Valid() && c.documents == []
    modifies c
    ensures afterFirst == [Job(Completed, "J1", "emails", payload, 0)]
    ensures c.documents == afterFirst
    ensures claimed == Some("J1")
    ensures fetched == Success(payload)
    ensures refetched == Failure(MissingJob)
    ensures c.documents == [Job(Completed, "J1", "emails", payload, 0)]
  {
    var emails := new MongoQueue("emails", c);
    var _ := emails.Set("J1", payload, 0);
    assert c.documents == [Job(Ready, "J1", "emails", payload, 0)];
    claimed := emails.Pop();
    assert c.documents == [Job(Processing, "J1", "emails", payload, 0)];
    fetched := emails.Get("J1");
    ghost var claimedState := c.documents;
    emails.Clear("J1");
    ClearEffect(claimedState, "J1", "emails");
    assert c.documents[0] == Job(Completed, "J1", "emails", payload, 0);
    afterFirst := c.documents;
    emails.Clear("J1");
    ClearEffect(afterFirst, "J1", "emails");
    refetched := emails.Get("J1");
  }

  /** Two jobs enqueued at increasing times are claimed oldest first, and a
      third pop finds nothing. */
  method ClaimInOrder<D>(c: Collection<D>, d1: D, d2: D, t1: int, t2: int)
    returns (first: Option<string>, second: Option<string>, third: Option<string>)
    requires c.Valid() && c.documents == [] && t1 < t2
    modifies c
    ensures first == Some("J1") && second == Some("J2") && third == None
  {
    var emails := new MongoQueue("emails", c);
    var _ := emails.Set("J1", d1, t1);
    var _ := emails.Set("J2", d2, t2);
    ghost var queued := c.documents;
    assert queued == [Job(Ready, "J1", "emails", d1, t1), Job(Ready, "J2", "emails", d2, t2)];
    assert Matches(queued[0], ReadyFilter("emails"));
    assert !Claimable(queued, "emails", 1);
    first := emails.Pop();
    assert c.documents == [Job(Processing, "J1", "emails", d1, t1), Job(Ready, "J2", "emails", d2, t2)];
    second := emails.Pop();
    assert c.documents == [Job(Processing, "J1", "emails", d1, t1), Job(Processing, "J2", "emails", d2, t2)];
    third := emails.Pop();
  }

  /** A claimed job pushed back at a later time is claimed only after the job
      that was waiting behind it. */
  method RequeueGoesToBack<D>(c: Collection<D>, d1: D, d2: D)
    returns (first: Option<string>, second: Option<string>, third: Option<string>)
    requires c.Valid() && c.documents == []
    modifies c
    ensures first == Some("J1") && second == Some("J2") && third == Some("J1")
  {
    var emails := new MongoQueue("emails", c);
    var _ := emails.Set("J1", d1, 0);
    var _ := emails.Set("J2", d2, 1);
    ghost var queued := c.documents;
    assert queued == [Job(Ready, "J1", "emails", d1, 0), Job(Ready, "J2", "emails", d2, 1)];
    assert Matches(queued[0], ReadyFilter("emails"));
    assert !Claimable(queued, "emails", 1);
    first := emails.Pop();
    assert c.documents == [Job(Processing, "J1", "emails", d1, 0), Job(Ready, "J2", "emails", d2, 1)];
    ghost var claimedState := c.documents;
    emails.Push("J1", 2);
    ReleaseEffect(claimedState, "J1", "emails", 2);
    ghost var requeued := c.documents;
    assert requeued == [Job(Ready, "J1", "emails", d1, 2), Job(Ready, "J2", "emails", d2, 1)];
    assert Matches(requeued[1], ReadyFilter("emails"));
    assert !Claimable(requeued, "emails", 0);
    second := emails.Pop();
    assert c.documents == [Job(Ready, "J1", "emails", d1, 2), Job(Processing, "J2", "emails", d2, 1)];
    assert Matches(c.documents[0], ReadyFilter("emails"));
    third := emails.Pop();
  }

  /** Fetching a job that was enqueued but never claimed fails with
      `missingJob`, and so does enqueueing it again. */
  method FetchUnclaimed<D>(c: Collection<D>, payload: D)
    returns (fetched: Result<D, QueuesMongoError>, again: Outcome<StoreError>)
    requires c.Valid() && c.documents == []
    modifies c
    ensures fetched == Failure(MissingJob)
    ensures again == Fail(DuplicateKey)
  {
    var emails := new MongoQueue("emails", c);
    var _ := emails.Set("J1", payload, 0);
    assert c.documents[0] == Job(Ready, "J1", "emails", payload, 0);
    fetched := emails.Get("J1");
    again := emails.Set("J1", payload, 1);
  }
}
