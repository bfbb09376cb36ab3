// What every interleaving of the ingest protocol keeps: the package a media
// row publishes stays complete, because a package judged unused can never be
// published afterwards.
module PackageSafety {
  import opened Base
  import J = Jobs
  import opened IngestProtocol

  // Every token in the world was given out by a claim.
  predicate Issued(w: World) {
    && AttemptsIssued(w)
    && JobsIssued(w)
    && (forall k :: k in w.objects ==> k.prefix.lease in w.leases)
    && (forall j, p :: j in w.janitors && p in Held(w.janitors[j]) ==> p.lease in w.leases)
  }

  predicate AttemptsIssued(w: World) {
    && w.attempts.Keys == w.leases
    && (forall l :: l in w.attempts ==> w.attempts[l].job.lease == l)
  }

  predicate JobsIssued(w: World) {
    forall id :: id in w.jobs && w.jobs[id].lease.Some? ==>
      var l := w.jobs[id].lease.value;
      l in w.leases && l in w.attempts && w.attempts[l].job.id == id
  }

  function Held(j: Janitor): set<Prefix> {
    match j
    case Listing(c) => c
    case Deleting(u) => u
  }

  // A package nobody can publish any more: its token was given out, no job
  // runs under it and no row refers to it.
  predicate Dead(w: World, p: Prefix) {
    p.lease in w.leases && Unused(w, p)
  }

  // A janitor deletes only dead packages.
  predicate DeletesDead(w: World) {
    forall j, p :: j in w.janitors && w.janitors[j].Deleting? && p in w.janitors[j].unused ==> Dead(w, p)
  }

  predicate Stored(w: World, p: Prefix, names: set<nat>) {
    forall n :: n in names ==> Key(p, n) in w.objects
  }

  // What an attempt uploaded is still there, unless its package is dead.
  predicate UploadsKept(w: World) {
    forall l :: l in w.attempts && w.attempts[l].phase.Uploading? ==>
      && w.attempts[l].phase.uploaded <= w.attempts[l].files
      && (!Dead(w, PackageOf(w.attempts[l])) ==> Stored(w, PackageOf(w.attempts[l]), w.attempts[l].phase.uploaded))
  }

  // A published package belongs to an attempt that finished, and is complete.
  predicate CompletePackage(w: World, p: Prefix) {
    && p.lease in w.attempts
    && PackageOf(w.attempts[p.lease]) == p
    && (w.attempts[p.lease].phase.Returned? || w.attempts[p.lease].phase.Ended?)
    && Stored(w, p, w.attempts[p.lease].files)
  }

  predicate PublishedComplete(w: World) {
    forall m :: m in w.media && w.media[m].prefix.Some? ==> CompletePackage(w, w.media[m].prefix.value)
  }

  predicate Safe(w: World) {
    Issued(w) && DeletesDead(w) && UploadsKept(w) && PublishedComplete(w)
  }

  lemma EmptyIsSafe()
    ensures Safe(EMPTY)
  {
  }

  // ---------------------------------------------------------------------
  // One step
  // ---------------------------------------------------------------------

  lemma StepKeepsAttempts(w: World, s: Step)
    requires AttemptsIssued(w) && Enabled(w, s)
    ensures AttemptsIssued(Do(w, s))
    ensures w.leases <= Do(w, s).leases
    ensures forall l :: l in w.attempts ==> Do(w, s).attempts[l].job == w.attempts[l].job
  {
    hide J.Enqueued, J.Renewed, J.Completed, J.FailedBy, J.Recovered, J.Reset, PackageOf, After, Unused;
  }

  // A row's lease is the one it had, or the one a claim just gave it.
  lemma StepKeepsJobs(w: World, s: Step)
    requires AttemptsIssued(w) && JobsIssued(w) && Enabled(w, s)
    ensures JobsIssued(Do(w, s))
  {
    var v := Do(w, s);
    StepKeepsAttempts(w, s);
    forall id | id in v.jobs && v.jobs[id].lease.Some?
      ensures v.jobs[id].lease.value in v.attempts && v.attempts[v.jobs[id].lease.value].job.id == id
    {
      if !(s.Claim? && s.id == id) {
        assert id in w.jobs && v.jobs[id].lease == w.jobs[id].lease;
      }
    }
  }

  lemma StepKeepsIssued(w: World, s: Step)
    requires Issued(w) && Enabled(w, s)
    ensures Issued(Do(w, s))
  {
    var v := Do(w, s);
    StepKeepsAttempts(w, s);
    StepKeepsJobs(w, s);
    forall j, p | j in v.janitors && p in Held(v.janitors[j])
      ensures p.lease in v.leases
    {
      if s.See? && s.j == j && p == s.key.prefix {
        assert s.key in w.objects;
      } else if !(s.OpenJanitor? && s.j == j) {
        assert j in w.janitors && p in Held(w.janitors[j]);
      }
    }
  }

  // A token that is not running can only start running by being issued afresh.
  lemma RunningWasRunning(w: World, s: Step, l: Lease)
    requires Issued(w) && Enabled(w, s) && l in w.leases
    requires RunningLease(Do(w, s), l)
    ensures RunningLease(w, l)
  {
    var v := Do(w, s);
    var id :| id in v.jobs && v.jobs[id].status == J.Running && v.jobs[id].lease == Some(l);
    assert id in w.jobs && w.jobs[id].status == J.Running && w.jobs[id].lease == Some(l);
  }

  // Only a publication by the attempt that holds the running lease adds a
  // package to a row.
  lemma PublishedWasRunning(w: World, s: Step, p: Prefix)
    requires Issued(w) && Enabled(w, s) && Publishes(Do(w, s), p) && !Publishes(w, p)
    ensures s.Publish? && Commits(w, s.lease) && p == PackageOf(w.attempts[s.lease])
    ensures RunningLease(w, p.lease)
  {
    var v := Do(w, s);
    var m :| m in v.media && v.media[m].prefix == Some(p);
    if m in w.media {
      assert w.media[m].prefix != Some(p);
    }
    assert s.Publish? && Commits(w, s.lease);
    var id := w.attempts[s.lease].job.id;
    assert w.jobs[id].status == J.Running && w.jobs[id].lease == Some(p.lease);
  }

  // Dead for one step, hence for ever.
  lemma DeadStaysDead(w: World, s: Step, p: Prefix)
    requires Issued(w) && Enabled(w, s) && Dead(w, p)
    ensures Dead(Do(w, s), p)
  {
    var v := Do(w, s);
    assert p.lease in v.leases;
    if RunningLease(v, p.lease) {
      RunningWasRunning(w, s, p.lease);
    }
    if Publishes(v, p) {
      PublishedWasRunning(w, s, p);
    }
  }

  lemma StepDeletesDead(w: World, s: Step)
    requires Safe(w) && Enabled(w, s)
    ensures DeletesDead(Do(w, s))
  {
    var v := Do(w, s);
    forall j, p | j in v.janitors && v.janitors[j].Deleting? && p in v.janitors[j].unused
      ensures Dead(v, p)
    {
      if s.Check? && s.j == j {
        assert p in Held(w.janitors[j]);
        assert Dead(w, p);
      }
      DeadStaysDead(w, s, p);
    }
  }

  // A deletion takes only objects of dead packages.
  lemma LiveObjectStays(w: World, s: Step, k: Key)
    requires Safe(w) && Enabled(w, s) && k in w.objects && !Dead(w, k.prefix)
    ensures k in Do(w, s).objects
  {
  }

  lemma StepKeepsUploads(w: World, s: Step)
    requires Safe(w) && Enabled(w, s)
    ensures UploadsKept(Do(w, s))
  {
    var v := Do(w, s);
    forall l | l in v.attempts && v.attempts[l].phase.Uploading?
      ensures v.attempts[l].phase.uploaded <= v.attempts[l].files
      ensures !Dead(v, PackageOf(v.attempts[l])) ==> Stored(v, PackageOf(v.attempts[l]), v.attempts[l].phase.uploaded)
    {
      var p := PackageOf(v.attempts[l]);
      assert l in w.attempts && PackageOf(w.attempts[l]) == p;
      if !Dead(v, p) {
        if Dead(w, p) {
          DeadStaysDead(w, s, p);
        }
        forall n | n in v.attempts[l].phase.uploaded
          ensures Key(p, n) in v.objects
        {
          if w.attempts[l].phase.Uploading? && n in w.attempts[l].phase.uploaded {
            LiveObjectStays(w, s, Key(p, n));
          }
        }
      }
    }
  }

  lemma CompleteStays(w: World, s: Step, p: Prefix)
    requires Safe(w) && Enabled(w, s) && CompletePackage(w, p) && Publishes(w, p)
    ensures CompletePackage(Do(w, s), p)
  {
    var v := Do(w, s);
    assert v.attempts[p.lease].files == w.attempts[p.lease].files;
    forall n | n in w.attempts[p.lease].files
      ensures Key(p, n) in v.objects
    {
      LiveObjectStays(w, s, Key(p, n));
    }
  }

  lemma StepKeepsComplete(w: World, s: Step)
    requires Safe(w) && Enabled(w, s)
    ensures PublishedComplete(Do(w, s))
  {
    var v := Do(w, s);
    forall m | m in v.media && v.media[m].prefix.Some?
      ensures CompletePackage(v, v.media[m].prefix.value)
    {
      var p := v.media[m].prefix.value;
      assert Publishes(v, p);
      if Publishes(w, p) {
        var m' :| m' in w.media && w.media[m'].prefix == Some(p);
        CompleteStays(w, s, p);
      } else {
        PublishedWasRunning(w, s, p);
        assert !Dead(w, p);
        assert v.attempts[s.lease].phase == Returned(true);
      }
    }
  }

  lemma StepIsSafe(w: World, s: Step)
    requires Safe(w) && Enabled(w, s)
    ensures Safe(Do(w, s))
  {
    StepKeepsIssued(w, s);
    StepDeletesDead(w, s);
    StepKeepsUploads(w, s);
    StepKeepsComplete(w, s);
  }

  // ---------------------------------------------------------------------
  // Whole runs
  // ---------------------------------------------------------------------

  // In every state any interleaving reaches, the package a media row
  // publishes holds every file its attempt produced.
  lemma {:induction false} PublishedStaysComplete(w: World, run: seq<Step>)
    requires Safe(w) && IsRun(w, run)
    ensures Safe(Final(w, run))
    ensures forall m :: m in Final(w, run).media && Final(w, run).media[m].prefix.Some? ==>
      CompletePackage(Final(w, run), Final(w, run).media[m].prefix.value)
    decreases |run|
  {
    if run != [] {
      StepIsSafe(w, run[0]);
      PublishedStaysComplete(Do(w, run[0]), run[1..]);
    }
  }

  // A package the janitor's query judges unused is never published later.
  lemma {:induction false} UnusedIsForEver(w: World, run: seq<Step>, p: Prefix)
    requires Issued(w) && IsRun(w, run) && Dead(w, p)
    ensures Dead(Final(w, run), p)
    decreases |run|
  {
    if run != [] {
      StepKeepsIssued(w, run[0]);
      DeadStaysDead(w, run[0], p);
      UnusedIsForEver(Do(w, run[0]), run[1..], p);
    }
  }

  // What a janitor listed was given out, so the check decides about it for
  // good: what it takes is never published in any run that follows. Without
  // the running-lease half the query would condemn a package whose attempt is
  // about to publish it.
  lemma UnusedMeansDead(w: World, j: nat, p: Prefix)
    requires Safe(w) && j in w.janitors && w.janitors[j].Listing? && p in w.janitors[j].candidates
    ensures Unused(w, p) <==> Dead(w, p)
    ensures Unused(w, p) <==> p in Do(w, Check(j)).janitors[j].unused
    ensures Unused(w, p) ==> forall run :: IsRun(w, run) ==> !Publishes(Final(w, run), p)
  {
    assert p in Held(w.janitors[j]);
    if Unused(w, p) {
      forall run | IsRun(w, run) ensures !Publishes(Final(w, run), p) {
        UnusedIsForEver(w, run, p);
      }
    }
  }
}
