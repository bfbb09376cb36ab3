// What the fence guarantees over whole runs: a revoked attempt is inert for
// ever, ready media stays ready, and the retry budget bounds the claims.
module AttemptFence {
  import opened Base
  import J = Jobs
  import opened IngestProtocol
  import opened PackageSafety

  // ---------------------------------------------------------------------
  // Revoked attempts
  // ---------------------------------------------------------------------

  // The attempt's job was recovered, completed, failed or handed on.
  predicate Revoked(w: World, l: Lease) {
    l in w.attempts && !Owns(w, l)
  }

  lemma RevokedStays(w: World, s: Step, l: Lease)
    requires Issued(w) && Enabled(w, s) && Revoked(w, l)
    ensures Revoked(Do(w, s), l)
  {
    var v := Do(w, s);
    StepKeepsAttempts(w, s);
    if Owns(v, l) {
      var id := v.attempts[l].job.id;
      assert RunningLease(v, l);
      RunningWasRunning(w, s, l);
      assert false;
    }
  }

  // The steps an attempt takes in its own name.
  predicate ActsFor(s: Step, l: Lease) {
    match s
    case Renew(x, _) => x == l
    case Load(x) => x == l
    case SetStatus(x, _) => x == l
    case Probed(x, _) => x == l
    case Progress(x, _, _) => x == l
    case Proceed(x, _) => x == l
    case Upload(x, _) => x == l
    case Publish(x, _) => x == l
    case Break(x) => x == l
    case MarkFailed(x, _) => x == l
    case Record(x, _, _) => x == l
    case Die(x) => x == l
    case _ => false
  }

  // What the fence protects of a media row: all but the probed details.
  predicate SameFenced(w: World, v: World) {
    && w.media.Keys == v.media.Keys
    && forall m :: m in w.media ==>
         && w.media[m].status == v.media[m].status
         && w.media[m].progress == v.media[m].progress
         && w.media[m].prefix == v.media[m].prefix
  }

  lemma RevokedChangesNothing(w: World, s: Step, l: Lease)
    requires Issued(w) && Enabled(w, s) && ActsFor(s, l) && Revoked(w, l)
    ensures Do(w, s).jobs == w.jobs && SameFenced(w, Do(w, s))
  {
    assert w.attempts[l].job.lease == l;
  }

  // After any run that follows the revocation, no step of the attempt
  // touches a job row or the status, progress or package of a media row.
  lemma {:induction false} RevokedIsInert(w: World, run: seq<Step>, s: Step, l: Lease)
    requires Issued(w) && Revoked(w, l) && IsRun(w, run)
    requires ActsFor(s, l) && Enabled(Final(w, run), s)
    ensures Revoked(Final(w, run), l)
    ensures Do(Final(w, run), s).jobs == Final(w, run).jobs
    ensures SameFenced(Final(w, run), Do(Final(w, run), s))
    decreases |run|
  {
    if run == [] {
      RevokedChangesNothing(w, s, l);
    } else {
      StepKeepsIssued(w, run[0]);
      RevokedStays(w, run[0], l);
      RevokedIsInert(Do(w, run[0]), run[1..], s, l);
    }
  }

  // The three ways a job is taken away all revoke.
  lemma TakingAwayRevokes(w: World, s: Step, l: Lease)
    requires Issued(w) && Enabled(w, s) && Owns(w, l)
    ensures s.Record? && s.lease == l ==> Revoked(Do(w, s), l)
    ensures s.Recover? && J.Stale(w.jobs[w.attempts[l].job.id], s.now, s.length) ==> Revoked(Do(w, s), l)
    ensures !(s.Record? && s.lease == l) && !(s.Recover? && J.Stale(w.jobs[w.attempts[l].job.id], s.now, s.length)) ==>
      Owns(Do(w, s), l)
  {
    var id := w.attempts[l].job.id;
    assert w.jobs[id].lease == Some(l);
    StepKeepsAttempts(w, s);
    if s.Record? && s.lease != l {
      assert J.Owned(w.jobs, w.attempts[s.lease].job.id, s.lease) ==> w.attempts[s.lease].job.id != id;
    }
  }

  // ---------------------------------------------------------------------
  // Ready is absorbing
  // ---------------------------------------------------------------------

  predicate Live(r: J.Row) { r.status == J.Pending || r.status == J.Running }

  predicate OneLiveJob(w: World) {
    forall a, b :: a in w.jobs && b in w.jobs && a != b && w.jobs[a].media == w.jobs[b].media ==>
      !Live(w.jobs[a]) || !Live(w.jobs[b])
  }

  predicate RetriesFailed(w: World, s: Step)
    requires Enabled(w, s)
  {
    s.RetryMedia? ==> w.media[s.media].status == MediaFailed
  }

  // A run on which every media has one live job at a time, and a media is
  // re-queued only while its row says failed.
  predicate Exclusive(w: World, run: seq<Step>)
    requires IsRun(w, run)
    decreases |run|
  {
    OneLiveJob(w) && (run != [] ==> RetriesFailed(w, run[0]) && Exclusive(Do(w, run[0]), run[1..]))
  }

  predicate Ready(w: World, m: MediaId) { m in w.media && w.media[m].status == MediaReady }

  // The attempt's fenced write goes through, to this media.
  predicate Writes(w: World, l: Lease, m: MediaId) { Commits(w, l) && w.attempts[l].job.media == m }

  // What takes a ready row back: a status or a failure that an attempt writes
  // while it owns a job of the media, and a re-queue.
  predicate Undoes(w: World, s: Step, m: MediaId)
    requires Enabled(w, s)
  {
    match s
    case SetStatus(l, _) => Writes(w, l, m) && w.attempts[l].phase.next != MediaReady
    case MarkFailed(l, _) => Writes(w, l, m)
    case RetryMedia(x, _, _) => x == m
    case _ => false
  }

  // What puts another package in place of the published one.
  predicate Replaces(w: World, s: Step, m: MediaId)
    requires Enabled(w, s) && m in w.media
  {
    s.Publish? && Writes(w, s.lease, m) && w.media[m].prefix != Some(PackageOf(w.attempts[s.lease]))
  }

  // Exactly these steps disturb ready media.
  lemma StepReady(w: World, s: Step, m: MediaId)
    requires Enabled(w, s) && Ready(w, m)
    ensures Ready(Do(w, s), m) <==> !Undoes(w, s, m)
    ensures Ready(Do(w, s), m) ==> (Do(w, s).media[m].prefix == w.media[m].prefix <==> !Replaces(w, s, m))
  {
  }

  // No step of the run is one of them.
  predicate Undisturbed(w: World, run: seq<Step>, m: MediaId)
    requires IsRun(w, run) && m in w.media
    decreases |run|
  {
    run == [] || (!Undoes(w, run[0], m) && !Replaces(w, run[0], m) && Undisturbed(Do(w, run[0]), run[1..], m))
  }

  // In every state of the run the media is ready, with this package.
  predicate StaysReady(w: World, run: seq<Step>, m: MediaId, p: Option<Prefix>)
    requires IsRun(w, run)
    decreases |run|
  {
    Ready(w, m) && w.media[m].prefix == p && (run == [] || StaysReady(Do(w, run[0]), run[1..], m, p))
  }

  lemma {:induction false} RunReady(w: World, run: seq<Step>, m: MediaId)
    requires IsRun(w, run) && Ready(w, m)
    ensures StaysReady(w, run, m, w.media[m].prefix) <==> Undisturbed(w, run, m)
    decreases |run|
  {
    hide Do, Undoes, Replaces, Enabled;
    if run != [] {
      StepReady(w, run[0], m);
      var v := Do(w, run[0]);
      MediaStays(w, run[0], m);
      if Ready(v, m) && v.media[m].prefix == w.media[m].prefix {
        RunReady(v, run[1..], m);
      }
    }
  }

  lemma MediaStays(w: World, s: Step, m: MediaId)
    requires Enabled(w, s) && m in w.media
    ensures m in Do(w, s).media
  {
  }

  lemma {:induction false} FinalReady(w: World, run: seq<Step>, m: MediaId, p: Option<Prefix>)
    requires IsRun(w, run) && StaysReady(w, run, m, p)
    ensures Ready(Final(w, run), m) && Final(w, run).media[m].prefix == p
    decreases |run|
  {
    if run != [] {
      FinalReady(Do(w, run[0]), run[1..], m, p);
    }
  }

  // An attempt that got past Load and still owns its job works on media
  // that is not ready, and only a publication is about to make it so; the
  // job's row names the same media.
  predicate OwnersWork(w: World) {
    && (forall l :: l in w.attempts && w.attempts[l].phase.Before? ==> w.attempts[l].phase.next != MediaReady)
    && forall l :: l in w.attempts && Owns(w, l) ==>
      && w.jobs[w.attempts[l].job.id].media == w.attempts[l].job.media
      && (Busy(w.attempts[l].phase) || w.attempts[l].phase.Broken? ==> !Ready(w, w.attempts[l].job.media))
  }

  // Whoever owns a job of the media is the only one who does.
  lemma OwnersDiffer(w: World, a: Lease, b: Lease)
    requires Issued(w) && OneLiveJob(w) && OwnersWork(w) && Owns(w, a) && Owns(w, b) && a != b
    ensures w.attempts[a].job.media != w.attempts[b].job.media
  {
  }

  // With one live job per media nobody who may write works on ready media.
  lemma OwnersDisturbNothing(w: World, s: Step, m: MediaId)
    requires OwnersWork(w) && Enabled(w, s) && Ready(w, m) && RetriesFailed(w, s)
    ensures !Undoes(w, s, m) && !Replaces(w, s, m)
  {
  }

  // Only a publication makes media ready.
  lemma ReadyComesFromPublish(w: World, s: Step, m: MediaId)
    requires OwnersWork(w) && Enabled(w, s) && Ready(Do(w, s), m) && !Ready(w, m)
    ensures s.Publish? && Commits(w, s.lease) && w.attempts[s.lease].job.media == m
  {
  }

  lemma OwnerOwned(w: World, s: Step, l: Lease)
    requires Issued(w) && Enabled(w, s) && l in w.attempts && Owns(Do(w, s), l)
    ensures Owns(w, l) && Do(w, s).attempts[l].job == w.attempts[l].job
    ensures Do(w, s).jobs[w.attempts[l].job.id].media == w.jobs[w.attempts[l].job.id].media
  {
    StepKeepsAttempts(w, s);
    if Revoked(w, l) {
      RevokedStays(w, s, l);
    }
  }

  // The phase of an attempt is ahead of Load only if it was, or if its own
  // Load found the media not ready.
  lemma OwnerStillWorks(w: World, s: Step, l: Lease)
    requires Issued(w) && OneLiveJob(w) && OwnersWork(w) && Enabled(w, s)
    requires l in w.attempts && Owns(Do(w, s), l)
    ensures Busy(Do(w, s).attempts[l].phase) || Do(w, s).attempts[l].phase.Broken? ==>
      !Ready(Do(w, s), w.attempts[l].job.media)
  {
    OwnerOwned(w, s, l);
    var m := w.attempts[l].job.media;
    if Ready(Do(w, s), m) && !Ready(w, m) {
      ReadyComesFromPublish(w, s, m);
      if s.lease != l {
        OwnersDiffer(w, l, s.lease);
      }
    }
  }

  lemma StepKeepsOwnersWork(w: World, s: Step)
    requires Issued(w) && OneLiveJob(w) && OwnersWork(w) && Enabled(w, s)
    ensures OwnersWork(Do(w, s))
  {
    var v := Do(w, s);
    assert forall l :: l in v.attempts && v.attempts[l].phase.Before? ==> v.attempts[l].phase.next != MediaReady;
    forall l | l in v.attempts && Owns(v, l)
      ensures v.jobs[v.attempts[l].job.id].media == v.attempts[l].job.media
      ensures Busy(v.attempts[l].phase) || v.attempts[l].phase.Broken? ==> !Ready(v, v.attempts[l].job.media)
    {
      if l in w.attempts {
        OwnerOwned(w, s, l);
        OwnerStillWorks(w, s, l);
      } else {
        assert s.Claim? && s.lease == l;
      }
    }
  }

  lemma {:induction false} ExclusiveIsUndisturbed(w: World, run: seq<Step>, m: MediaId)
    requires Issued(w) && OwnersWork(w) && IsRun(w, run) && Exclusive(w, run) && Ready(w, m)
    ensures Undisturbed(w, run, m) && OwnersWork(Final(w, run))
    decreases |run|
  {
    hide Do, Undoes, Replaces, Enabled, Issued, OwnersWork, OneLiveJob;
    if run != [] {
      StepKeepsIssued(w, run[0]);
      StepKeepsOwnersWork(w, run[0]);
      OwnersDisturbNothing(w, run[0], m);
      StepReady(w, run[0], m);
      ExclusiveIsUndisturbed(Do(w, run[0]), run[1..], m);
    }
  }

  // With one live job per media, a published row keeps its status and its
  // package through every later retry, recovery and stale attempt.
  lemma ReadyIsAbsorbing(w: World, run: seq<Step>, m: MediaId)
    requires Issued(w) && OwnersWork(w) && IsRun(w, run) && Exclusive(w, run) && Ready(w, m)
    ensures StaysReady(w, run, m, w.media[m].prefix)
    ensures Ready(Final(w, run), m) && Final(w, run).media[m].prefix == w.media[m].prefix
    ensures OwnersWork(Final(w, run))
  {
    hide Do, Enabled, Issued, OwnersWork, Exclusive, Undisturbed, StaysReady, Final;
    ExclusiveIsUndisturbed(w, run, m);
    RunReady(w, run, m);
    FinalReady(w, run, m, w.media[m].prefix);
  }

  // ---------------------------------------------------------------------
  // Two live jobs for one media
  // ---------------------------------------------------------------------

  // Every re-queue of the run is of a row that says failed.
  predicate RetriesOnlyFailed(w: World, run: seq<Step>)
    requires IsRun(w, run)
    decreases |run|
  {
    run == [] || (RetriesFailed(w, run[0]) && RetriesOnlyFailed(Do(w, run[0]), run[1..]))
  }

  // The run leads from w to v.
  predicate Leads(w: World, run: seq<Step>, v: World) { IsRun(w, run) && RetriesOnlyFailed(w, run) && Final(w, run) == v }

  lemma {:induction false} LeadsThrough(u: World, a: seq<Step>, w: World, b: seq<Step>, v: World)
    requires Leads(u, a, w) && Leads(w, b, v)
    ensures Leads(u, a + b, v)
    decreases |a|
  {
    hide Do, Enabled, RetriesFailed;
    if a == [] {
      assert a + b == b;
    } else {
      LeadsThrough(Do(u, a[0]), a[1..], w, b, v);
      assert (a + b)[1..] == a[1..] + b;
    }
  }

  lemma LeadsOne(w: World, s: Step)
    requires Enabled(w, s) && RetriesFailed(w, s)
    ensures Leads(w, [s], Do(w, s))
  {
    hide Do, Enabled, RetriesFailed;
    var v := Do(w, s);
    assert [s][1..] == [] && IsRun(v, []) && RetriesOnlyFailed(v, []) && Final(v, []) == v;
    assert IsRun(w, [s]);
  }

  // A job that failed once and waits for its second attempt; its media says
  // failed.
  predicate FailedOnce(w: World) {
    && w.jobs.Keys == {1} && w.jobs[1] == J.Row(J.Pending, 0, 0, 1, 3, 30000, 0, None, None)
    && w.leases == {1} && w.attempts.Keys == {1} && 0 in w.media && w.media[0].status == MediaFailed
  }

  lemma FailsOnce() returns (run: seq<Step>, w: World)
    ensures Leads(EMPTY, run, w) && FailedOnce(w)
  {
    hide Leads;
    var s1, s2, s3 := NewMedia(0, 1, 0), Claim(1, 1, 0), Load(1);
    var w1 := Do(EMPTY, s1);
    var w2 := Do(w1, s2);
    var w3 := Do(w2, s3);
    LeadsOne(EMPTY, s1);
    LeadsOne(w1, s2);
    LeadsThrough(EMPTY, [s1], w1, [s2], w2);
    LeadsOne(w2, s3);
    LeadsThrough(EMPTY, [s1] + [s2], w2, [s3], w3);
    var rest: seq<Step>;
    rest, w := Fails(w3);
    run := [s1] + [s2] + [s3] + rest;
    LeadsThrough(EMPTY, [s1] + [s2] + [s3], w3, rest, w);
  }

  // The first attempt of job 1 read the media row.
  predicate FirstAttempt(w: World) {
    && w.jobs.Keys == {1} && w.jobs[1] == J.Row(J.Running, 0, 0, 1, 3, 0, 0, Some(0), Some(1))
    && w.leases == {1} && w.attempts == map[1 := Attempt(J.Job(1, 0, 1, 1, 3), Before(MediaProbing), {})]
    && w.media.Keys == {0}
  }

  lemma Fails(w: World) returns (run: seq<Step>, v: World)
    requires FirstAttempt(w)
    ensures Leads(w, run, v) && FailedOnce(v)
  {
    hide Leads;
    var s1, s2, s3 := Break(1), MarkFailed(1, 0), Record(1, false, 0);
    var w1 := Do(w, s1);
    var w2 := Do(w1, s2);
    v := Do(w2, s3);
    LeadsOne(w, s1);
    LeadsOne(w1, s2);
    LeadsThrough(w, [s1], w1, [s2], w2);
    LeadsOne(w2, s3);
    LeadsThrough(w, [s1] + [s2], w2, [s3], v);
    run := [s1] + [s2] + [s3];
    assert J.Backoff(1) == 30000;
  }

  predicate SameMedia(w: World)
    requires Owns(w, 2) && Owns(w, 3)
  {
    var a, b := w.attempts[2].job.id, w.attempts[3].job.id;
    a != b && w.jobs[a].media == 0 && w.jobs[b].media == 0
  }

  // Attempts 2 and 3 own the two jobs of media 0; attempt 2 is at phase p,
  // and attempt 3 is about to probe.
  predicate TwoAtWork(w: World, p: Phase) {
    && Owns(w, 2) && Owns(w, 3) && 0 in w.media && SameMedia(w)
    && w.attempts[2].job.media == 0 && w.attempts[3].job.media == 0
    && w.attempts[2].phase == p && w.attempts[2].files == {} && w.attempts[3].phase == Before(MediaProbing)
  }

  lemma SecondJobStarts(w: World) returns (run: seq<Step>, v: World)
    requires FailedOnce(w)
    ensures Leads(w, run, v) && TwoAtWork(v, Before(MediaProbing))
  {
    hide Leads;
    var s1, s2, s3 := RetryMedia(0, 2, 0), Claim(1, 2, 30000), Claim(2, 3, 30000);
    var w1 := Do(w, s1);
    var w2 := Do(w1, s2);
    var w3 := Do(w2, s3);
    LeadsOne(w, s1);
    LeadsOne(w1, s2);
    LeadsThrough(w, [s1], w1, [s2], w2);
    LeadsOne(w2, s3);
    LeadsThrough(w, [s1] + [s2], w2, [s3], w3);
    var rest: seq<Step>;
    rest, v := BothLoad(w3);
    run := [s1] + [s2] + [s3] + rest;
    LeadsThrough(w, [s1] + [s2] + [s3], w3, rest, v);
  }

  // Both attempts are claimed and have not read the row of their media yet.
  predicate BothClaimed(w: World) {
    && Owns(w, 2) && Owns(w, 3) && 0 in w.media && SameMedia(w) && w.media[0].status != MediaReady
    && w.attempts[2].job.media == 0 && w.attempts[3].job.media == 0
    && w.attempts[2].phase == Start && w.attempts[3].phase == Start && w.attempts[2].files == {}
  }

  lemma BothLoad(w: World) returns (run: seq<Step>, v: World)
    requires BothClaimed(w)
    ensures Leads(w, run, v) && TwoAtWork(v, Before(MediaProbing))
  {
    hide Leads;
    var w1 := Do(w, Load(2));
    v := Do(w1, Load(3));
    LeadsOne(w, Load(2));
    LeadsOne(w1, Load(3));
    run := [Load(2)] + [Load(3)];
    LeadsThrough(w, [Load(2)], w1, [Load(3)], v);
  }

  // Attempt 2 enters a step and gets through it.
  lemma Enters(w: World, next: MediaStatus) returns (run: seq<Step>, v: World)
    requires TwoAtWork(w, Before(next)) && next in {MediaProbing, MediaDownloading, MediaPackaging}
    ensures Leads(w, run, v) && TwoAtWork(v, After(next))
  {
    hide Leads;
    var w1 := Do(w, SetStatus(2, 30000));
    v := Do(w1, Proceed(2, {}));
    LeadsOne(w, SetStatus(2, 30000));
    LeadsOne(w1, Proceed(2, {}));
    run := [SetStatus(2, 30000)] + [Proceed(2, {})];
    LeadsThrough(w, [SetStatus(2, 30000)], w1, [Proceed(2, {})], v);
  }

  lemma Publishes2(w: World) returns (run: seq<Step>, v: World)
    requires TwoAtWork(w, Before(MediaUploading))
    ensures Leads(w, run, v) && TwoAtWork(v, Returned(true)) && Ready(v, 0)
  {
    hide Leads;
    var w1 := Do(w, SetStatus(2, 30000));
    v := Do(w1, Publish(2, 30000));
    LeadsOne(w, SetStatus(2, 30000));
    LeadsOne(w1, Publish(2, 30000));
    run := [SetStatus(2, 30000)] + [Publish(2, 30000)];
    LeadsThrough(w, [SetStatus(2, 30000)], w1, [Publish(2, 30000)], v);
  }

  lemma WorksThrough(w: World) returns (run: seq<Step>, v: World)
    requires TwoAtWork(w, Before(MediaProbing))
    ensures Leads(w, run, v) && TwoAtWork(v, Returned(true)) && Ready(v, 0)
  {
    hide Leads, TwoAtWork, Ready;
    var a, w1 := Enters(w, MediaProbing);
    var b, w2 := Enters(w1, MediaDownloading);
    LeadsThrough(w, a, w1, b, w2);
    var c, w3 := Enters(w2, MediaPackaging);
    LeadsThrough(w, a + b, w2, c, w3);
    var d: seq<Step>;
    d, v := Publishes2(w3);
    run := a + b + c + d;
    LeadsThrough(w, a + b + c, w3, d, v);
  }

  // From the empty system, with nothing re-queued that is not failed: an
  // attempt fails with retries left, the media is re-queued under a second
  // job, one attempt publishes, and the other moves the published row back.
  lemma SecondJobUndoesReady() returns (run: seq<Step>, w: World, s: Step)
    ensures Leads(EMPTY, run, w) && Ready(w, 0)
    ensures Enabled(w, s) && !s.RetryMedia? && Undoes(w, s, 0) && !Ready(Do(w, s), 0)
    ensures !OneLiveJob(w)
  {
    hide Leads;
    var a, w1 := FailsOnce();
    var b, w2 := SecondJobStarts(w1);
    LeadsThrough(EMPTY, a, w1, b, w2);
    var c: seq<Step>;
    c, w := WorksThrough(w2);
    run := a + b + c;
    LeadsThrough(EMPTY, a + b, w2, c, w);
    s := SetStatus(3, 30000);
    assert Live(w.jobs[w.attempts[2].job.id]) && Live(w.jobs[w.attempts[3].job.id]);
  }

  lemma EmptyIsFenced()
    ensures Issued(EMPTY) && OwnersWork(EMPTY) && OneLiveJob(EMPTY) && Budgeted(EMPTY)
  {
  }

  // ---------------------------------------------------------------------
  // The retry budget
  // ---------------------------------------------------------------------

  predicate WithinBudget(r: J.Row) {
    && (r.status == J.Pending ==> r.attempts < r.maxAttempts)
    && (r.status == J.Running ==> 1 <= r.attempts <= r.maxAttempts)
    && r.attempts <= r.maxAttempts && r.maxAttempts > 0
  }

  predicate Budgeted(w: World) {
    && (forall id :: id in w.jobs ==> WithinBudget(w.jobs[id]))
    && (forall l :: l in w.attempts && Owns(w, l) ==>
          var j := w.attempts[l].job;
          j.attempts == w.jobs[j.id].attempts && j.maxAttempts == w.jobs[j.id].maxAttempts)
  }

  lemma StepKeepsBudget(w: World, s: Step)
    requires Issued(w) && Budgeted(w) && Enabled(w, s)
    ensures Budgeted(Do(w, s))
  {
    var v := Do(w, s);
    StepKeepsAttempts(w, s);
    StepKeepsIssued(w, s);
    forall l | l in v.attempts && Owns(v, l)
      ensures v.attempts[l].job.attempts == v.jobs[v.attempts[l].job.id].attempts
      ensures v.attempts[l].job.maxAttempts == v.jobs[v.attempts[l].job.id].maxAttempts
    {
      if !(s.Claim? && s.lease == l) {
        assert l in w.attempts;
        if Revoked(w, l) {
          RevokedStays(w, s, l);
        }
      }
    }
    if s.Record? && !w.attempts[s.lease].phase.ok && Owns(w, s.lease) {
      var j := w.attempts[s.lease].job;
      assert j.attempts == w.jobs[j.id].attempts;
    }
  }

  function ClaimsOf(run: seq<Step>, id: JobId): nat
    decreases |run|
  {
    if run == [] then 0
    else (if run[0].Claim? && run[0].id == id then 1 else 0) + ClaimsOf(run[1..], id)
  }

  predicate NoReset(run: seq<Step>, id: JobId) {
    forall i :: 0 <= i < |run| ==> !(run[i].RetryJob? && run[i].id == id)
  }

  // Between resets the attempt counter counts exactly the claims, so no mix
  // of failures, crashes and recoveries claims a job more often than its
  // budget allows; a job at its limit is pending no more.
  lemma {:induction false} BudgetBoundsClaims(w: World, run: seq<Step>, id: JobId)
    requires Issued(w) && Budgeted(w) && IsRun(w, run) && NoReset(run, id) && id in w.jobs
    ensures Budgeted(Final(w, run)) && id in Final(w, run).jobs
    ensures Final(w, run).jobs[id].attempts == w.jobs[id].attempts + ClaimsOf(run, id)
    ensures Final(w, run).jobs[id].maxAttempts == w.jobs[id].maxAttempts
    ensures ClaimsOf(run, id) <= w.jobs[id].maxAttempts - w.jobs[id].attempts
    decreases |run|
  {
    if run != [] {
      var s := run[0];
      StepKeepsIssued(w, s);
      StepKeepsBudget(w, s);
      assert id in Do(w, s).jobs;
      assert Do(w, s).jobs[id].attempts == w.jobs[id].attempts + ClaimsOf([s], id);
      assert Do(w, s).jobs[id].maxAttempts == w.jobs[id].maxAttempts;
      BudgetBoundsClaims(Do(w, s), run[1..], id);
    }
  }

  // How far a job is from rest: claims left, then whether one is running.
  function Distance(r: J.Row): nat
    requires WithinBudget(r)
  {
    match r.status
    case Pending => 2 * (r.maxAttempts - r.attempts) + 1
    case Running => 2 * (r.maxAttempts - r.attempts) + 2
    case _ => 0
  }

  // Every change of a job's status, reset aside, brings it closer to rest.
  lemma StatusChangesComeToRest(w: World, s: Step, id: JobId)
    requires Issued(w) && Budgeted(w) && Enabled(w, s) && id in w.jobs
    requires !(s.RetryJob? && s.id == id)
    ensures Budgeted(Do(w, s)) && id in Do(w, s).jobs
    ensures Do(w, s).jobs[id].status != w.jobs[id].status ==> Distance(Do(w, s).jobs[id]) < Distance(w.jobs[id])
    ensures Do(w, s).jobs[id].status == w.jobs[id].status ==> Distance(Do(w, s).jobs[id]) == Distance(w.jobs[id])
  {
    StepKeepsBudget(w, s);
  }
}
