/** The three collection calls the queue makes (`insert`, `findOne`,
    `findAndModify`), described only by the filters, updates and sort order the
    queue passes to them, over the shared collection and its unique index on
    (jobid, queue). */
module Store {
  import opened Records

  /** A filter document: an optional `jobid`, the `queue` name and a raw
      `status` string, each compared for equality. */
  datatype Filter = Filter(jobid: Option<string>, queue: string, status: string)

  predicate Matches<D>(j: Job<D>, f: Filter) {
    (f.jobid.None? || f.jobid.value == j.jobid) && j.queue == f.queue && j.status.Raw() == f.status
  }

  /** A `$set` update document: always the status, the creation time when given. */
  datatype Update = SetFields(status: Status, created: Option<int>)

  function Apply<D>(j: Job<D>, u: Update): Job<D> {
    j.(status := u.status, created := if u.created.Some? then u.created.value else j.created)
  }

  predicate AnyMatch<D>(jobs: seq<Job<D>>, f: Filter) {
    exists i :: 0 <= i < |jobs| && Matches(jobs[i], f)
  }

  predicate HasKey<D>(jobs: seq<Job<D>>, jobid: string, queue: string) {
    exists i :: 0 <= i < |jobs| && jobs[i].jobid == jobid && jobs[i].queue == queue
  }

  /** The unique index `job_index` on (jobid, queue): no two documents agree
      on both fields, whatever their status. */
  ghost predicate UniqueKeys<D>(jobs: seq<Job<D>>) {
    forall i, k :: 0 <= i < k < |jobs| ==> jobs[i].jobid != jobs[k].jobid || jobs[i].queue != jobs[k].queue
  }

  /** Document i is one `findAndModify` may pick: it matches the filter and,
      when the call sorts on `created` ascending, no matching document is
      older. Documents with equal `created` are left in no particular order. */
  predicate Selectable<D>(jobs: seq<Job<D>>, f: Filter, byCreated: bool, i: int) {
    0 <= i < |jobs| && Matches(jobs[i], f) &&
    (byCreated ==> forall k :: 0 <= k < |jobs| && Matches(jobs[k], f) ==> jobs[i].created <= jobs[k].created)
  }

  /** The first matching document in collection order, if any. */
  function FirstMatch<D>(jobs: seq<Job<D>>, f: Filter): (r: Option<nat>)
    ensures r.None? <==> !AnyMatch(jobs, f)
    ensures r.Some? ==> r.value < |jobs| && Matches(jobs[r.value], f)
    ensures r.Some? ==> forall k :: 0 <= k < r.value ==> !Matches(jobs[k], f)
  {
    if |jobs| == 0 then None
    else if Matches(jobs[0], f) then Some(0)
    else
      match FirstMatch(jobs[1..], f)
      case None =>
        assert forall k :: 1 <= k < |jobs| ==> jobs[k] == jobs[1..][k - 1];
        None
      case Some(i) =>
        assert forall k :: 1 <= k <= i ==> jobs[k] == jobs[1..][k - 1];
        Some(i + 1)
  }

  /** What a `findAndModify` with a key-selecting filter does to the
      collection: the matching document, if any, receives the update. */
  function ModifyFirst<D>(jobs: seq<Job<D>>, f: Filter, u: Update): (r: seq<Job<D>>)
    ensures |r| == |jobs|
  {
    match FirstMatch(jobs, f)
    case None => jobs
    case Some(i) => jobs[i := Apply(jobs[i], u)]
  }

  /** Some matching document has a `created` no later than every other match. */
  lemma {:induction false} OldestMatchExists<D>(jobs: seq<Job<D>>, f: Filter)
    requires AnyMatch(jobs, f)
    ensures exists i :: Selectable(jobs, f, true, i)
  {
    var last := |jobs| - 1;
    var init := jobs[..last];
    if w :| 0 <= w < last && Matches(jobs[w], f) {
      assert init[w] == jobs[w];
      OldestMatchExists(init, f);
      var i :| Selectable(init, f, true, i);
      var c := if Matches(jobs[last], f) && jobs[last].created < jobs[i].created then last else i;
      forall k | 0 <= k < |jobs| && Matches(jobs[k], f)
        ensures jobs[c].created <= jobs[k].created
      {
        if k < last {
          assert init[k] == jobs[k];
        }
      }
      assert Selectable(jobs, f, true, c);
    } else {
      assert Selectable(jobs, f, true, last);
    }
  }

  /** Under the unique index, a filter that names a job id matches at most
      one document. */
  lemma KeyFilterMatchesOnce<D>(jobs: seq<Job<D>>, f: Filter, i: int, k: int)
    requires UniqueKeys(jobs) && f.jobid.Some?
    requires 0 <= i < |jobs| && Matches(jobs[i], f)
    requires 0 <= k < |jobs| && Matches(jobs[k], f)
    ensures i == k
  {
  }

  /** Whichever matching document the store picks, a key-selecting update
      has the effect ModifyFirst describes. */
  lemma SelectedIsFirst<D>(jobs: seq<Job<D>>, f: Filter, byCreated: bool, u: Update, i: int)
    requires UniqueKeys(jobs) && f.jobid.Some?
    requires Selectable(jobs, f, byCreated, i)
    ensures ModifyFirst(jobs, f, u) == jobs[i := Apply(jobs[i], u)]
  {
    var j := FirstMatch(jobs, f).value;
    KeyFilterMatchesOnce(jobs, f, i, j);
  }

  /** Under the unique index, ModifyFirst updates exactly the documents that
      match a key-selecting filter and leaves every other one as it was. */
  lemma {:induction false} ModifyFirstEffect<D>(jobs: seq<Job<D>>, f: Filter, u: Update)
    requires UniqueKeys(jobs) && f.jobid.Some?
    ensures |ModifyFirst(jobs, f, u)| == |jobs|
    ensures forall k :: 0 <= k < |jobs| ==>
      ModifyFirst(jobs, f, u)[k] == if Matches(jobs[k], f) then Apply(jobs[k], u) else jobs[k]
  {
    match FirstMatch(jobs, f)
    case None =>
    case Some(i) =>
      forall k | 0 <= k < |jobs| && Matches(jobs[k], f)
        ensures k == i
      {
        KeyFilterMatchesOnce(jobs, f, i, k);
      }
  }

  /** An update never rewrites `jobid` or `queue`, so it keeps the index valid. */
  lemma UpdateKeepsKeys<D>(jobs: seq<Job<D>>, i: int, u: Update)
    requires UniqueKeys(jobs) && 0 <= i < |jobs|
    ensures UniqueKeys(jobs[i := Apply(jobs[i], u)])
  {
    var after := jobs[i := Apply(jobs[i], u)];
    forall a, b | 0 <= a < b < |after|
      ensures after[a].jobid != after[b].jobid || after[a].queue != after[b].queue
    {
      assert after[a].jobid == jobs[a].jobid && after[a].queue == jobs[a].queue;
      assert after[b].jobid == jobs[b].jobid && after[b].queue == jobs[b].queue;
    }
  }

  /** Appending a document whose key is new keeps the index valid. */
  lemma InsertKeepsKeys<D>(jobs: seq<Job<D>>, doc: Job<D>)
    requires UniqueKeys(jobs) && !HasKey(jobs, doc.jobid, doc.queue)
    ensures UniqueKeys(jobs + [doc])
  {
    var after := jobs + [doc];
    forall a, b | 0 <= a < b < |after|
      ensures after[a].jobid != after[b].jobid || after[a].queue != after[b].queue
    {
      if b < |jobs| {
        assert after[a] == jobs[a] && after[b] == jobs[b];
      } else {
        assert after[a] == jobs[a] && after[b] == doc;
      }
    }
  }

  datatype StoreError = DuplicateKey

  /** The `vapor_queue` collection shared by every logical queue. Each method
      is one atomic call on it. */
  class Collection<D> {
    var documents: seq<Job<D>>

    /** The unique index on (jobid, queue) holds. */
    ghost predicate Valid()
      reads this
    {
      UniqueKeys(documents)
    }

    constructor ()
      ensures Valid() && documents == []
    {
      documents := [];
    }

    /** `insert`: appends the document unless the unique index already holds
        its (jobid, queue), in which case nothing changes. */
    method Insert(doc: Job<D>) returns (r: Outcome<StoreError>)
      requires Valid()
      modifies this
      ensures Valid()
      ensures r.Fail? <==> HasKey(old(documents), doc.jobid, doc.queue)
      ensures r.Fail? ==> r.error == DuplicateKey && documents == old(documents)
      ensures r.Pass? ==> documents == old(documents) + [doc]
    {
      if HasKey(documents, doc.jobid, doc.queue) {
        r := Fail(DuplicateKey);
      } else {
        InsertKeepsKeys(documents, doc);
        documents := documents + [doc];
        r := Pass;
      }
    }

    /** `findOne`: some matching document, or none when nothing matches. */
    method FindOne(f: Filter) returns (r: Option<Job<D>>)
      ensures r.None? <==> !AnyMatch(documents, f)
      ensures r.Some? ==> exists i :: 0 <= i < |documents| && documents[i] == r.value && Matches(r.value, f)
    {
      if AnyMatch(documents, f) {
        var i :| 0 <= i < |documents| && Matches(documents[i], f);
        r := Some(documents[i]);
      } else {
        r := None;
      }
    }

    /** `findAndModify`: picks one matching document (the oldest by `created`
        when sorted), applies the update to it alone and returns the
        modified document; when nothing matches, nothing changes. */
    method FindAndModify(f: Filter, u: Update, byCreated: bool) returns (r: Option<Job<D>>)
      requires Valid()
      modifies this
      ensures Valid()
      ensures r.None? <==> !AnyMatch(old(documents), f)
      ensures r.None? ==> documents == old(documents)
      ensures r.Some? ==> exists i :: Selectable(old(documents), f, byCreated, i)
                                   && documents == old(documents)[i := Apply(old(documents)[i], u)]
                                   && r.value == documents[i]
    {
      if AnyMatch(documents, f) {
        OldestMatchExists(documents, f);
        var w :| Selectable(documents, f, true, w);
        assert Selectable(documents, f, byCreated, w);
        var i :| 0 <= i < |documents| && Selectable(documents, f, byCreated, i);
        var updated := Apply(documents[i], u);
        UpdateKeepsKeys(documents, i, u);
        documents := documents[i := updated];
        r := Some(updated);
      } else {
        r := None;
      }
    }
  }
}
