// The job queue: rows of the jobs table, the effect of every statement on
// them as functions on a table, and the queue as an object that runs those
// statements in place.
module Jobs {
  import opened Base

  datatype Status = Pending | Running | Done | Failed

  datatype Row = Row(
    status: Status,
    kind: nat,
    media: MediaId,          // the payload
    attempts: nat,
    maxAttempts: nat,
    runAt: int,
    createdAt: int,
    lockedAt: Option<int>,
    lease: Option<Lease>)

  // What Claim hands to the worker: the attempt's own copy of the row.
  datatype Job = Job(id: JobId, media: MediaId, lease: Lease, attempts: nat, maxAttempts: nat)

  type Table = map<JobId, Row>

  const DEFAULT_MAX_ATTEMPTS: nat := 3
  const BACKOFF_BASE := 30_000
  const BACKOFF_CAP := 1_800_000

  predicate Runnable(r: Row, now: int, kinds: set<nat>) {
    r.status == Pending && r.runAt <= now && r.kind in kinds
  }

  // The order in which Claim takes runnable rows.
  predicate NoLater(a: Row, b: Row) {
    a.runAt < b.runAt || (a.runAt == b.runAt && a.createdAt <= b.createdAt)
  }

  // The fence every write of an attempt carries.
  predicate Owned(t: Table, id: JobId, lease: Lease) {
    id in t && t[id].lease == Some(lease) && t[id].status == Running
  }

  function Release(r: Row, status: Status): Row {
    r.(status := status, lockedAt := None, lease := None)
  }

  function Claimed(t: Table, id: JobId, lease: Lease, now: int): Table
    requires id in t
  {
    t[id := t[id].(status := Running, lockedAt := Some(now), lease := Some(lease), attempts := t[id].attempts + 1)]
  }

  function Attempt(t: Table, id: JobId, lease: Lease): Job
    requires id in t
  {
    Job(id, t[id].media, lease, t[id].attempts, t[id].maxAttempts)
  }

  function Renewed(t: Table, id: JobId, lease: Lease, now: int): Table {
    if Owned(t, id, lease) then t[id := t[id].(lockedAt := Some(now))] else t
  }

  function Completed(t: Table, id: JobId, lease: Lease): Table {
    if Owned(t, id, lease) then t[id := Release(t[id], Done)] else t
  }

  // The delay doubles per attempt from 30 seconds and stops at 30 minutes.
  function Backoff(attempt: int): (d: int)
    ensures 30_000 <= d <= 1_800_000
    ensures attempt >= 7 ==> d == 1_800_000
    ensures 1 <= attempt <= 6 ==> d == 30_000 * Doubled(attempt - 1)
  {
    DoublesPastCap(attempt);
    var d := BACKOFF_BASE * Doubled(if attempt < 1 then 0 else attempt - 1);
    if d > BACKOFF_CAP then BACKOFF_CAP else d
  }

  function Doubled(n: nat): (d: nat)
    ensures d >= 1
  {
    if n == 0 then 1 else 2 * Doubled(n - 1)
  }

  lemma {:induction false} DoublesPastCap(attempt: int)
    ensures attempt >= 7 ==> Doubled(attempt - 1) >= 64
    ensures 1 <= attempt <= 6 ==> Doubled(attempt - 1) <= 32
    decreases attempt
  {
    if attempt > 7 {
      DoublesPastCap(attempt - 1);
    } else if attempt >= 1 {
      assert Doubled(1) == 2 && Doubled(2) == 4 && Doubled(3) == 8;
      assert Doubled(4) == 16 && Doubled(5) == 32 && Doubled(6) == 64;
    }
  }

  predicate Retries(j: Job, permanent: bool) {
    j.attempts < j.maxAttempts && !permanent
  }

  function FailedBy(t: Table, j: Job, permanent: bool, now: int): Table {
    if !Owned(t, j.id, j.lease) then t
    else if Retries(j, permanent)
    then t[j.id := Release(t[j.id], Pending).(runAt := now + Backoff(j.attempts))]
    else t[j.id := Release(t[j.id], Failed)]
  }

  // A failed attempt gives its lease back: the job is failed for good when the
  // error is permanent or the budget is used up, and else waits for its turn.
  lemma FailMeans(t: Table, j: Job, permanent: bool, now: int)
    requires Owned(t, j.id, j.lease)
    ensures var u := FailedBy(t, j, permanent, now);
      var r := u[j.id];
      && u.Keys == t.Keys && (forall id :: id in t && id != j.id ==> u[id] == t[id])
      && r.lease.None? && r.lockedAt.None? && r.attempts == t[j.id].attempts && r.media == t[j.id].media
      && if permanent || j.attempts >= j.maxAttempts then r.status == Failed && r.runAt == t[j.id].runAt
         else r.status == Pending && now + 30_000 <= r.runAt <= now + 1_800_000
  {
  }

  predicate Stale(r: Row, now: int, length: int) {
    r.status == Running && r.lockedAt.Some? && r.lockedAt.value < now - length
  }

  function Recover(r: Row, now: int, length: int): Row {
    if Stale(r, now, length)
    then Release(r, if r.attempts >= r.maxAttempts then Failed else Pending)
    else r
  }

  // A row whose lock is older than the lease is given back, and failed once
  // its budget is used up; any other row is left alone.
  lemma RecoverMeans(r: Row, now: int, length: int)
    ensures var u := Recover(r, now, length);
      if r.status == Running && r.lockedAt.Some? && now - r.lockedAt.value > length
      then u.lease.None? && u.lockedAt.None? && u.attempts == r.attempts && u.media == r.media && u.runAt == r.runAt
           && (u.status == if r.attempts < r.maxAttempts then Pending else Failed)
      else u == r
  {
  }

  function Recovered(t: Table, now: int, length: int): Table {
    map id | id in t :: Recover(t[id], now, length)
  }

  function Reset(t: Table, id: JobId, now: int): Table {
    if id in t && t[id].status == Failed
    then t[id := t[id].(status := Pending, attempts := 0, runAt := now)]
    else t
  }

  function Enqueued(t: Table, id: JobId, kind: nat, media: MediaId, maxAttempts: int, now: int): Table {
    t[id := Row(Pending, kind, media, 0, if maxAttempts <= 0 then DEFAULT_MAX_ATTEMPTS else maxAttempts, now, now, None, None)]
  }

  datatype Outcome = Held | LeaseLost

  lemma EmptyOrNot(ids: set<JobId>)
    ensures ids == {} || exists id :: id in ids
  {
    if forall id :: id !in ids {
      assert ids == {};
    }
  }

  ghost function Any(ids: set<JobId>): (id: JobId)
    requires ids != {}
    ensures id in ids
  {
    EmptyOrNot(ids);
    var id :| id in ids;
    id
  }

  // The queue over its table. Every write of an attempt goes through the
  // fence: it takes effect only while the attempt still owns the job.
  class Queue {
    var rows: Table
    ghost var issued: set<Lease>  // every token a claim was ever given
    const length: int             // how long a claim lasts without renewal

    constructor (length: int)
      ensures rows == map[] && issued == {} && this.length == length
    {
      rows, issued := map[], {};
      this.length := length;
    }

    method Enqueue(id: JobId, kind: nat, media: MediaId, maxAttempts: int, now: int)
      requires id !in rows
      modifies this`rows
      ensures rows == Enqueued(old(rows), id, kind, media, maxAttempts, now)
    {
      var budget := maxAttempts;
      if budget <= 0 {
        budget := DEFAULT_MAX_ATTEMPTS;
      }
      rows := rows[id := Row(Pending, kind, media, 0, budget, now, now, None, None)];
    }

    // busy: rows another transaction has locked at this moment, which the
    // claim skips. token: the fresh lease.
    method Claim(kinds: set<nat>, busy: set<JobId>, token: Lease, now: int) returns (job: Option<Job>)
      requires token !in issued
      modifies this
      ensures job.None? ==> rows == old(rows) && issued == old(issued)
      ensures job.None? ==> forall id :: id in rows && id !in busy ==> !Runnable(rows[id], now, kinds)
      ensures job.Some? ==>
        var id := job.value.id;
        && id in old(rows) && id !in busy && Runnable(old(rows)[id], now, kinds)
        && (forall x :: x in old(rows) && x !in busy && Runnable(old(rows)[x], now, kinds) ==> NoLater(old(rows)[id], old(rows)[x]))
        && rows == Claimed(old(rows), id, token, now)
        && job.value == Attempt(rows, id, token)
        && issued == old(issued) + {token}
    {
      var todo := set id | id in rows && id !in busy && Runnable(rows[id], now, kinds);
      var best: Option<JobId> := None;
      ghost var seen: set<JobId> := {};
      ghost var all := todo;
      while todo != {}
        invariant seen + todo == all && seen !! todo
        invariant best.None? <==> seen == {}
        invariant best.Some? ==> best.value in seen && forall x :: x in seen ==> NoLater(rows[best.value], rows[x])
        decreases todo
      {
        assert Any(todo) in todo;
        var id :| id in todo;
        todo := todo - {id};
        seen := seen + {id};
        if best.None? || !NoLater(rows[best.value], rows[id]) {
          best := Some(id);
        }
      }
      assert forall id :: id in rows && id !in busy && Runnable(rows[id], now, kinds) ==> id in all;
      if best.None? {
        return None;
      }
      var id := best.value;
      rows := rows[id := rows[id].(status := Running, lockedAt := Some(now), lease := Some(token), attempts := rows[id].attempts + 1)];
      issued := issued + {token};
      job := Some(Job(id, rows[id].media, token, rows[id].attempts, rows[id].maxAttempts));
    }

    // Renew, and the row lock that opens a fenced transaction: the
    // transaction's own writes run only when the answer is Held.
    method Renew(j: Job, now: int) returns (r: Outcome)
      modifies this`rows
      ensures r.Held? <==> Owned(old(rows), j.id, j.lease)
      ensures rows == Renewed(old(rows), j.id, j.lease, now)
    {
      if j.id in rows && rows[j.id].lease == Some(j.lease) && rows[j.id].status == Running {
        rows := rows[j.id := rows[j.id].(lockedAt := Some(now))];
        r := Held;
      } else {
        r := LeaseLost;
      }
    }

    method Complete(j: Job) returns (r: Outcome)
      modifies this`rows
      ensures r.Held? <==> Owned(old(rows), j.id, j.lease)
      ensures rows == Completed(old(rows), j.id, j.lease)
    {
      if j.id in rows && rows[j.id].lease == Some(j.lease) && rows[j.id].status == Running {
        rows := rows[j.id := rows[j.id].(status := Done, lockedAt := None, lease := None)];
        r := Held;
      } else {
        r := LeaseLost;
      }
    }

    method Fail(j: Job, permanent: bool, now: int) returns (retry: bool, r: Outcome)
      modifies this`rows
      ensures retry <==> Retries(j, permanent)
      ensures r.Held? <==> Owned(old(rows), j.id, j.lease)
      ensures rows == FailedBy(old(rows), j, permanent, now)
    {
      retry := j.attempts < j.maxAttempts && !permanent;
      if !(j.id in rows && rows[j.id].lease == Some(j.lease) && rows[j.id].status == Running) {
        r := LeaseLost;
        return;
      }
      r := Held;
      var row := rows[j.id];
      if !retry {
        rows := rows[j.id := row.(status := Failed, lockedAt := None, lease := None)];
      } else {
        rows := rows[j.id := row.(status := Pending, lockedAt := None, lease := None, runAt := now + Backoff(j.attempts))];
      }
    }

    method RecoverStale(now: int) returns (count: nat)
      modifies this`rows
      ensures rows == Recovered(old(rows), now, length)
      ensures count == |set id | id in old(rows) && Stale(old(rows)[id], now, length)|
    {
      var stale := set id | id in rows && rows[id].status == Running && rows[id].lockedAt.Some? && rows[id].lockedAt.value < now - length;
      count := |stale|;
      ghost var before := rows;
      ghost var all := stale;
      assert all == set id | id in old(rows) && Stale(old(rows)[id], now, length);
      while stale != {}
        invariant stale <= all && rows.Keys == before.Keys
        invariant forall id :: id in before ==> rows[id] == if id in stale then before[id] else Recover(before[id], now, length)
        decreases stale
      {
        assert Any(stale) in stale;
        var id :| id in stale;
        var row := rows[id];
        var status := if row.attempts >= row.maxAttempts then Failed else Pending;
        rows := rows[id := row.(status := status, lockedAt := None, lease := None)];
        stale := stale - {id};
      }
      ghost var want := Recovered(before, now, length);
      assert stale == {};
      assert want.Keys == before.Keys;
      assert forall id :: id in before ==> rows[id] == want[id];
      assert rows == want;
    }

    method Retry(id: JobId, now: int)
      modifies this`rows
      ensures rows == Reset(old(rows), id, now)
    {
      if id in rows && rows[id].status == Failed {
        rows := rows[id := rows[id].(status := Pending, attempts := 0, runAt := now)];
      }
    }
  }
}
