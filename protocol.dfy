/** The queue protocol as a sequential state machine over the shared
    collection: each call of a `MongoQueue` on queue q is one atomic step, and
    the lemmas state what the claim/complete/release rules, the FIFO order and
    the unique index guarantee. */
module Protocol {
  import opened Records
  import opened Store
  import opened Queue

  /** One call of a `MongoQueue`; `now` is the clock reading taken by `set`
      and `push`. */
  datatype Call<D> =
    | SetCall(id: string, data: D, now: int)
    | PopCall
    | GetCall(id: string)
    | ClearCall(id: string)
    | PushCall(id: string, now: int)

  /** `after` is a possible collection after `c` is made on queue q. */
  ghost predicate Step<D>(before: seq<Job<D>>, q: string, c: Call<D>, after: seq<Job<D>>) {
    match c
    case SetCall(id, data, now) =>
      after == (match Enqueued(before, id, q, data, now) case Some(s) => s case None => before)
    case PopCall =>
      if AnyMatch(before, ReadyFilter(q)) then exists i :: Claimable(before, q, i) && after == Claimed(before, i)
      else after == before
    case GetCall(_) => after == before
    case ClearCall(id) => after == Cleared(before, id, q)
    case PushCall(id, now) => after == Released(before, id, q, now)
  }

  /** A history of calls on any queues, starting from the empty collection. */
  ghost predicate Trace<D>(states: seq<seq<Job<D>>>, queues: seq<string>, calls: seq<Call<D>>) {
    |states| == |calls| + 1 && |queues| == |calls| && states[0] == [] &&
    forall t :: 0 <= t < |calls| ==> Step(states[t], queues[t], calls[t], states[t + 1])
  }

  /** A run of `pop` calls on queue q, claiming records picks[0], picks[1], ... */
  ghost predicate PopRun<D>(states: seq<seq<Job<D>>>, q: string, picks: seq<int>) {
    |states| == |picks| + 1 &&
    forall t :: 0 <= t < |picks| ==> Claimable(states[t], q, picks[t]) && states[t + 1] == Claimed(states[t], picks[t])
  }

  // ----- set -----

  /** `set` appends exactly one ready record with the given fields and keeps
      every existing record; it is refused, leaving the collection as it was,
      exactly when some record already has this (jobid, queue), whatever its
      status, so a completed job can never be enqueued again under its id. */
  lemma EnqueueEffect<D>(jobs: seq<Job<D>>, id: string, q: string, data: D, now: int)
    requires UniqueKeys(jobs)
    ensures Enqueued(jobs, id, q, data, now).None? <==>
              exists k :: 0 <= k < |jobs| && jobs[k].jobid == id && jobs[k].queue == q
    ensures Enqueued(jobs, id, q, data, now).Some? ==>
              var after := Enqueued(jobs, id, q, data, now).value;
              |after| == |jobs| + 1 && after[..|jobs|] == jobs &&
              after[|jobs|] == Job(Ready, id, q, data, now) && UniqueKeys(after)
  {
    if !HasKey(jobs, id, q) {
      InsertKeepsKeys(jobs, Job(Ready, id, q, data, now));
    }
  }

  // ----- pop -----

  /** A claim changes one record only: a ready record of q, no younger than
      any other ready record of q, becomes processing with its other fields
      kept, and the unique index still holds. */
  lemma ClaimEffect<D>(jobs: seq<Job<D>>, q: string, i: int)
    requires UniqueKeys(jobs) && Claimable(jobs, q, i)
    ensures jobs[i].queue == q && jobs[i].status == Ready
    ensures forall k :: 0 <= k < |jobs| && jobs[k].queue == q && jobs[k].status == Ready ==> jobs[i].created <= jobs[k].created
    ensures |Claimed(jobs, i)| == |jobs| && Claimed(jobs, i)[i] == jobs[i].(status := Processing)
    ensures forall k :: 0 <= k < |jobs| && k != i ==> Claimed(jobs, i)[k] == jobs[k]
    ensures UniqueKeys(Claimed(jobs, i))
  {
    forall k | 0 <= k < |jobs| && jobs[k].queue == q && jobs[k].status == Ready
      ensures jobs[i].created <= jobs[k].created
    {
      assert Matches(jobs[k], ReadyFilter(q));
    }
    UpdateKeepsKeys(jobs, i, SetFields(Processing, None));
  }

  /** After a claim, `get` on the claimed id finds that one record and so
      returns the enqueued payload. */
  lemma ClaimedJobIsFetchable<D>(jobs: seq<Job<D>>, q: string, i: int)
    requires UniqueKeys(jobs) && Claimable(jobs, q, i)
    ensures AnyMatch(Claimed(jobs, i), ProcessingFilter(jobs[i].jobid, q))
    ensures forall k :: 0 <= k < |jobs| && Matches(Claimed(jobs, i)[k], ProcessingFilter(jobs[i].jobid, q))
              ==> Claimed(jobs, i)[k].data == jobs[i].data
  {
    var after := Claimed(jobs, i);
    UpdateKeepsKeys(jobs, i, SetFields(Processing, None));
    assert Matches(after[i], ProcessingFilter(jobs[i].jobid, q));
    forall k | 0 <= k < |jobs| && Matches(after[k], ProcessingFilter(jobs[i].jobid, q))
      ensures after[k].data == jobs[i].data
    {
      KeyFilterMatchesOnce(after, ProcessingFilter(jobs[i].jobid, q), i, k);
    }
  }

  // ----- get -----

  /** A job that is still ready (or already completed) has no processing
      record, so `get` on it fails with `missingJob`. */
  lemma UnclaimedJobIsMissing<D>(jobs: seq<Job<D>>, q: string, k: int)
    requires UniqueKeys(jobs) && 0 <= k < |jobs| && jobs[k].queue == q
    requires jobs[k].status != Processing
    ensures !AnyMatch(jobs, ProcessingFilter(jobs[k].jobid, q))
  {
  }

  // ----- clear -----

  /** `clear` turns this queue's processing record for id into completed,
      keeping its other fields, and changes no other record; with no such
      record it changes nothing. */
  lemma ClearEffect<D>(jobs: seq<Job<D>>, id: string, q: string)
    requires UniqueKeys(jobs)
    ensures |Cleared(jobs, id, q)| == |jobs| && UniqueKeys(Cleared(jobs, id, q))
    ensures forall k :: 0 <= k < |jobs| ==>
              Cleared(jobs, id, q)[k] ==
                (if jobs[k].jobid == id && jobs[k].queue == q && jobs[k].status == Processing
                 then jobs[k].(status := Completed) else jobs[k])
    ensures !AnyMatch(jobs, ProcessingFilter(id, q)) ==> Cleared(jobs, id, q) == jobs
  {
    ModifyFirstEffect(jobs, ProcessingFilter(id, q), SetFields(Completed, None));
    match FirstMatch(jobs, ProcessingFilter(id, q))
    case None =>
    case Some(i) => UpdateKeepsKeys(jobs, i, SetFields(Completed, None));
  }

  /** A second `clear` of the same job changes nothing and reports nothing:
      the driver never inspects whether a record matched. */
  lemma ClearIsIdempotent<D>(jobs: seq<Job<D>>, id: string, q: string)
    requires UniqueKeys(jobs)
    ensures Cleared(Cleared(jobs, id, q), id, q) == Cleared(jobs, id, q)
  {
    var once := Cleared(jobs, id, q);
    ClearEffect(jobs, id, q);
    ClearEffect(once, id, q);
    assert !AnyMatch(once, ProcessingFilter(id, q)) by {
      forall k | 0 <= k < |once|
        ensures !Matches(once[k], ProcessingFilter(id, q))
      {
      }
    }
  }

  // ----- push -----

  /** `push` at time `now` turns this queue's processing record for id back
      into ready and restamps it with `now`, keeping its other fields; every
      other record is unchanged, and with no such record nothing changes. */
  lemma ReleaseEffect<D>(jobs: seq<Job<D>>, id: string, q: string, now: int)
    requires UniqueKeys(jobs)
    ensures |Released(jobs, id, q, now)| == |jobs| && UniqueKeys(Released(jobs, id, q, now))
    ensures forall k :: 0 <= k < |jobs| ==>
              Released(jobs, id, q, now)[k] ==
                (if jobs[k].jobid == id && jobs[k].queue == q && jobs[k].status == Processing
                 then jobs[k].(status := Ready, created := now) else jobs[k])
    ensures !AnyMatch(jobs, PushFilter(id, q)) ==> Released(jobs, id, q, now) == jobs
  {
    ModifyFirstEffect(jobs, PushFilter(id, q), SetFields(Ready, Some(now)));
    match FirstMatch(jobs, PushFilter(id, q))
    case None =>
    case Some(i) => UpdateKeepsKeys(jobs, i, SetFields(Ready, Some(now)));
  }

  // ----- runs of pops: FIFO and requeue order -----

  /** Along a run of pops, record k is exactly as it started, except that it
      is processing once it has been claimed. */
  lemma {:induction false} RunState<D>(states: seq<seq<Job<D>>>, q: string, picks: seq<int>, t: int)
    requires PopRun(states, q, picks) && 0 <= t < |states|
    ensures |states[t]| == |states[0]|
    ensures forall k :: 0 <= k < |states[0]| ==>
              states[t][k] == if k in picks[..t] then states[0][k].(status := Processing) else states[0][k]
  {
    if t > 0 {
      RunState(states, q, picks, t - 1);
      var p := picks[t - 1];
      assert picks[..t] == picks[..t - 1] + [p];
      assert Claimable(states[t - 1], q, p) && states[t] == Claimed(states[t - 1], p);
    }
  }

  /** A pop never claims a record while an older ready record of the same
      queue, present when the run began, is still unclaimed. */
  lemma OlderReadyClaimedFirst<D>(states: seq<seq<Job<D>>>, q: string, picks: seq<int>, t: int, k: int)
    requires PopRun(states, q, picks) && 0 <= t < |picks|
    requires 0 <= k < |states[0]| && states[0][k].queue == q && states[0][k].status == Ready
    requires states[0][k].created < states[t][picks[t]].created
    ensures k in picks[..t]
  {
    RunState(states, q, picks, t);
    var p := picks[t];
    assert Claimable(states[t], q, p);
    if k !in picks[..t] {
      assert states[t][k] == states[0][k];
      assert Matches(states[t][k], ReadyFilter(q));
      assert false;
    }
  }

  /** FIFO: when the ready records of q carry distinct creation times, a run
      of pops claims them in strictly increasing creation order. */
  lemma PopsFollowCreationOrder<D>(states: seq<seq<Job<D>>>, q: string, picks: seq<int>)
    requires PopRun(states, q, picks)
    requires forall i, k ::
               (0 <= i < k < |states[0]| && states[0][i].queue == q && states[0][i].status == Ready &&
                states[0][k].queue == q && states[0][k].status == Ready)
               ==> states[0][i].created != states[0][k].created
    ensures forall t :: 0 <= t < |picks| ==> 0 <= picks[t] < |states[0]|
    ensures forall t, u :: 0 <= t < u < |picks| ==> states[0][picks[t]].created < states[0][picks[u]].created
  {
    forall t | 0 <= t < |picks|
      ensures 0 <= picks[t] < |states[0]|
      ensures states[0][picks[t]].queue == q && states[0][picks[t]].status == Ready
      ensures picks[t] !in picks[..t]
    {
      RunState(states, q, picks, t);
      assert Claimable(states[t], q, picks[t]);
    }
    forall t, u | 0 <= t < u < |picks|
      ensures states[0][picks[t]].created < states[0][picks[u]].created
    {
      var p, p' := picks[t], picks[u];
      assert p in picks[..u];
      if states[0][p'].created < states[0][p].created {
        RunState(states, q, picks, t);
        OlderReadyClaimedFirst(states, q, picks, t, p');
        assert false;
      }
      assert p != p';
    }
  }

  /** FIFO on every input: a run of pops never claims a record before an
      older ready record of q; records with equal creation times may come
      in either order. */
  lemma PopsNeverOvertakeOlder<D>(states: seq<seq<Job<D>>>, q: string, picks: seq<int>)
    requires PopRun(states, q, picks)
    ensures forall t :: 0 <= t < |picks| ==> 0 <= picks[t] < |states[0]|
    ensures forall t, u :: 0 <= t < u < |picks| ==> states[0][picks[t]].created <= states[0][picks[u]].created
  {
    forall t | 0 <= t < |picks|
      ensures 0 <= picks[t] < |states[0]|
      ensures states[0][picks[t]].queue == q && states[0][picks[t]].status == Ready
      ensures picks[t] !in picks[..t]
    {
      RunState(states, q, picks, t);
      assert Claimable(states[t], q, picks[t]);
    }
    forall t, u | 0 <= t < u < |picks|
      ensures states[0][picks[t]].created <= states[0][picks[u]].created
    {
      var p, p' := picks[t], picks[u];
      if states[0][p'].created < states[0][p].created {
        RunState(states, q, picks, t);
        OlderReadyClaimedFirst(states, q, picks, t, p');
        assert false;
      }
    }
  }

  /** Requeue order: after `push` at time `now`, the run of pops that follows
      claims every ready record of q created strictly before `now` ahead of
      the pushed record. */
  lemma PushedJobGoesToBack<D>(jobs: seq<Job<D>>, id: string, q: string, now: int, p: int,
                               states: seq<seq<Job<D>>>, picks: seq<int>, t: int, k: int)
    requires UniqueKeys(jobs)
    requires 0 <= p < |jobs| && jobs[p].jobid == id && jobs[p].queue == q && jobs[p].status == Processing
    requires PopRun(states, q, picks) && states[0] == Released(jobs, id, q, now)
    requires 0 <= t < |picks| && picks[t] == p
    requires 0 <= k < |jobs| && jobs[k].queue == q && jobs[k].status == Ready && jobs[k].created < now
    ensures k in picks[..t]
  {
    ReleaseEffect(jobs, id, q, now);
    assert states[0][p].created == now;
    assert states[0][k] == jobs[k];
    RunState(states, q, picks, t);
    OlderReadyClaimedFirst(states, q, picks, t, k);
  }

  // ----- invariants over every history -----

  /** One call never rewrites `jobid`, `queue` or `data`, only `set` adds a
      record (a ready one of q), records of other queues are untouched, and
      the unique index keeps holding. */
  lemma StepInvariants<D>(before: seq<Job<D>>, q: string, c: Call<D>, after: seq<Job<D>>)
    requires UniqueKeys(before) && Step(before, q, c, after)
    ensures UniqueKeys(after)
    ensures |after| == if c.SetCall? && !HasKey(before, c.id, q) then |before| + 1 else |before|
    ensures forall k :: 0 <= k < |before| ==>
              after[k].jobid == before[k].jobid && after[k].queue == before[k].queue && after[k].data == before[k].data
    ensures forall k :: 0 <= k < |before| && before[k].queue != q ==> after[k] == before[k]
    ensures forall k :: |before| <= k < |after| ==> after[k].queue == q && after[k].status == Ready
  {
    match c
    case SetCall(id, data, now) =>
      EnqueueEffect(before, id, q, data, now);
    case PopCall =>
      if AnyMatch(before, ReadyFilter(q)) {
        var i :| Claimable(before, q, i) && after == Claimed(before, i);
        ClaimEffect(before, q, i);
      }
    case GetCall(_) =>
    case ClearCall(id) =>
      ClearEffect(before, id, q);
    case PushCall(id, now) =>
      ReleaseEffect(before, id, q, now);
  }

  /** In every history from the empty collection the unique index holds, so
      at most one record per (jobid, queue) is ever processing. */
  lemma {:induction false} TraceInvariant<D>(states: seq<seq<Job<D>>>, queues: seq<string>, calls: seq<Call<D>>, t: int)
    requires Trace(states, queues, calls) && 0 <= t < |states|
    ensures UniqueKeys(states[t])
    ensures forall i, k :: 0 <= i < |states[t]| && 0 <= k < |states[t]| && i != k
              && states[t][i].status == Processing && states[t][k].status == Processing
              ==> states[t][i].jobid != states[t][k].jobid || states[t][i].queue != states[t][k].queue
  {
    if t > 0 {
      TraceInvariant(states, queues, calls, t - 1);
      StepInvariants(states[t - 1], queues[t - 1], calls[t - 1], states[t]);
    }
    var s := states[t];
    forall i, k | 0 <= i < |s| && 0 <= k < |s| && i != k
      ensures s[i].jobid != s[k].jobid || s[i].queue != s[k].queue
    {
      if k < i {
        assert s[k].jobid != s[i].jobid || s[k].queue != s[i].queue;
      }
    }
  }
}
