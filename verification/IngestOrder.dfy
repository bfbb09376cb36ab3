// How a package comes to be published: in any run from the empty system, the
// attempt whose package a media row publishes moved the media through every
// step in order, and packaged the files that were uploaded.
module IngestOrder {
  import opened Base
  import J = Jobs
  import opened IngestProtocol
  import opened PackageSafety

  // ---------------------------------------------------------------------
  // Along a run
  // ---------------------------------------------------------------------

  lemma {:induction false} PrefixRuns(w: World, run: seq<Step>, n: nat)
    requires IsRun(w, run) && n <= |run|
    ensures IsRun(w, run[..n])
    ensures n < |run| ==> Enabled(Final(w, run[..n]), run[n]) && IsRun(w, run[..n + 1])
    ensures n < |run| ==> Final(w, run[..n + 1]) == Do(Final(w, run[..n]), run[n])
    ensures n == |run| ==> Final(w, run[..n]) == Final(w, run)
    decreases n
  {
    hide Do, Enabled;
    if n == 0 {
      if run != [] {
        assert run[..1][1..] == [];
      }
    } else {
      var v := Do(w, run[0]);
      PrefixRuns(v, run[1..], n - 1);
      assert run[..n][1..] == run[1..][..n - 1];
      if n < |run| {
        assert run[..n + 1][1..] == run[1..][..n];
      }
    }
  }

  // The world before step n.
  function At(run: seq<Step>, n: nat): World
    requires IsRun(EMPTY, run) && n <= |run|
  {
    PrefixRuns(EMPTY, run, n);
    Final(EMPTY, run[..n])
  }

  lemma NextAt(run: seq<Step>, n: nat)
    requires IsRun(EMPTY, run) && n < |run|
    ensures Enabled(At(run, n), run[n]) && At(run, n + 1) == Do(At(run, n), run[n])
  {
    PrefixRuns(EMPTY, run, n);
  }

  lemma {:induction false} IssuedAt(run: seq<Step>, n: nat)
    requires IsRun(EMPTY, run) && n <= |run|
    ensures AttemptsIssued(At(run, n))
  {
    hide Do, Enabled, AttemptsIssued, IsRun;
    if n == 0 {
      assert run[..0] == [];
      EmptyIsIssued();
    } else {
      IssuedAt(run, n - 1);
      NextAt(run, n - 1);
      StepKeepsAttempts(At(run, n - 1), run[n - 1]);
    }
  }

  lemma EmptyIsIssued()
    ensures AttemptsIssued(EMPTY)
  {
  }

  // ---------------------------------------------------------------------
  // How an attempt gets where it stands
  // ---------------------------------------------------------------------

  // The step brings attempt l to a: it was not there, or was different.
  predicate Brings(w: World, s: Step, l: Lease, a: Attempt)
    requires Enabled(w, s)
  {
    var v := Do(w, s);
    l in v.attempts && v.attempts[l] == a && (l !in w.attempts || w.attempts[l] != a)
  }

  lemma NobodyAtStart(run: seq<Step>, n: nat, l: Lease)
    requires IsRun(EMPTY, run) && n <= |run| && l in At(run, n).attempts
    ensures n > 0
  {
    assert run[..0] == [];
  }

  // Every state of an attempt was brought about by some step.
  lemma {:induction false} BroughtBy(run: seq<Step>, n: nat, l: Lease) returns (i: nat)
    requires IsRun(EMPTY, run) && n <= |run| && l in At(run, n).attempts
    ensures i < n && Enabled(At(run, i), run[i]) && Brings(At(run, i), run[i], l, At(run, n).attempts[l])
    decreases n
  {
    hide Do, Enabled, IsRun, At;
    NobodyAtStart(run, n, l);
    NextAt(run, n - 1);
    var w, a := At(run, n - 1), At(run, n).attempts[l];
    if l in w.attempts && w.attempts[l] == a {
      i := BroughtBy(run, n - 1, l);
    } else {
      i := n - 1;
    }
  }

  // Only the first status write of a step lets an attempt work on it.
  lemma WorkIsEntered(w: World, s: Step, l: Lease, a: Attempt)
    requires Enabled(w, s) && AttemptsIssued(w) && Brings(w, s, l, a)
    requires a.phase.In? || a.phase == Uploading({})
    ensures s.SetStatus? && s.lease == l && l in w.attempts && Commits(w, l)
    ensures w.attempts[l].phase.Before? && w.attempts[l].files == a.files && w.attempts[l].job == a.job
    ensures w.attempts[l].phase.next == if a.phase.In? then a.phase.at else MediaUploading
    ensures a.job.media in Do(w, s).media && Do(w, s).media[a.job.media].status == w.attempts[l].phase.next
  {
  }

  // And the work on one step alone makes it ready for the next; packaging
  // hands over the files.
  lemma WorkIsDone(w: World, s: Step, l: Lease, a: Attempt)
    requires Enabled(w, s) && AttemptsIssued(w) && Brings(w, s, l, a) && a.phase.Before? && a.phase.next != MediaProbing
    ensures s.Proceed? && s.lease == l && l in w.attempts && w.attempts[l].job == a.job && w.attempts[l].phase.In?
    ensures match w.attempts[l].phase.at
      case MediaProbing => a.phase.next == MediaDownloading
      case MediaDownloading => a.phase.next == MediaPackaging
      case MediaPackaging => a.phase.next == MediaUploading && a.files == s.files
      case _ => false
  {
  }

  lemma UploadsGoOn(w: World, s: Step, l: Lease, a: Attempt)
    requires Enabled(w, s) && AttemptsIssued(w) && Brings(w, s, l, a) && a.phase.Uploading? && a.phase.uploaded != {}
    ensures l in w.attempts && w.attempts[l].phase.Uploading? && w.attempts[l].files == a.files && w.attempts[l].job == a.job
  {
  }

  // Only a publication changes what a media row publishes.
  lemma PrefixComes(w: World, s: Step, m: MediaId, p: Prefix)
    requires Enabled(w, s) && m in Do(w, s).media && Do(w, s).media[m].prefix == Some(p)
    requires !(m in w.media && w.media[m].prefix == Some(p))
    ensures s.Publish? && Commits(w, s.lease) && PackageOf(w.attempts[s.lease]) == p
    ensures w.attempts[s.lease].phase == Uploading(w.attempts[s.lease].files)
  {
  }

  lemma NothingAtStart(run: seq<Step>, n: nat, m: MediaId)
    requires IsRun(EMPTY, run) && n <= |run| && m in At(run, n).media
    ensures n > 0
  {
    assert run[..0] == [];
  }

  lemma {:induction false} PublishedBy(run: seq<Step>, n: nat, m: MediaId, p: Prefix) returns (i: nat)
    requires IsRun(EMPTY, run) && n <= |run| && m in At(run, n).media && At(run, n).media[m].prefix == Some(p)
    ensures i < n && run[i].Publish? && Commits(At(run, i), run[i].lease) && PackageOf(At(run, i).attempts[run[i].lease]) == p
    ensures At(run, i).attempts[run[i].lease].phase == Uploading(At(run, i).attempts[run[i].lease].files)
    decreases n
  {
    hide Do, Enabled, IsRun, At, Commits, PackageOf;
    NothingAtStart(run, n, m);
    NextAt(run, n - 1);
    var w := At(run, n - 1);
    if m in w.media && w.media[m].prefix == Some(p) {
      i := PublishedBy(run, n - 1, m, p);
    } else {
      i := n - 1;
      PrefixComes(w, run[i], m, p);
    }
  }

  // ---------------------------------------------------------------------
  // Past packaging the files stay
  // ---------------------------------------------------------------------

  predicate Late(p: Phase) { !p.Start? && !p.Before? && !p.In? }

  lemma LateStays(w: World, s: Step, l: Lease)
    requires Enabled(w, s) && AttemptsIssued(w) && l in w.attempts && Late(w.attempts[l].phase)
    ensures l in Do(w, s).attempts && Late(Do(w, s).attempts[l].phase) && Do(w, s).attempts[l].files == w.attempts[l].files
  {
  }

  lemma {:induction false} FilesStay(run: seq<Step>, i: nat, n: nat, l: Lease)
    requires IsRun(EMPTY, run) && i <= n <= |run| && l in At(run, i).attempts && Late(At(run, i).attempts[l].phase)
    ensures l in At(run, n).attempts && Late(At(run, n).attempts[l].phase)
    ensures At(run, n).attempts[l].files == At(run, i).attempts[l].files
    decreases n
  {
    hide Do, Enabled, IsRun, At, AttemptsIssued, Late;
    if i < n {
      FilesStay(run, i, n - 1, l);
      NextAt(run, n - 1);
      IssuedAt(run, n - 1);
      LateStays(At(run, n - 1), run[n - 1], l);
    }
  }

  // ---------------------------------------------------------------------
  // The order of the steps
  // ---------------------------------------------------------------------

  // At i attempt l owns its job and moves media m to st.
  predicate MovesTo(run: seq<Step>, i: nat, m: MediaId, l: Lease, st: MediaStatus)
    requires IsRun(EMPTY, run)
  {
    && i < |run| && run[i].SetStatus? && run[i].lease == l && Owns(At(run, i), l)
    && At(run, i).attempts[l].job.media == m && m in At(run, i + 1).media && At(run, i + 1).media[m].status == st
  }

  // How it came to work on st, which is not what it begins with.
  lemma CameTo(run: seq<Step>, n: nat, l: Lease) returns (i: nat)
    requires IsRun(EMPTY, run) && n <= |run| && l in At(run, n).attempts && At(run, n).attempts[l].phase.In?
    ensures i < n && l in At(run, i).attempts && At(run, i).attempts[l].phase == Before(At(run, n).attempts[l].phase.at)
    ensures At(run, i).attempts[l].job == At(run, n).attempts[l].job
    ensures MovesTo(run, i, At(run, n).attempts[l].job.media, l, At(run, n).attempts[l].phase.at)
  {
    hide Do, Enabled, IsRun, At, AttemptsIssued;
    i := BroughtBy(run, n, l);
    NextAt(run, i);
    IssuedAt(run, i);
    WorkIsEntered(At(run, i), run[i], l, At(run, n).attempts[l]);
  }

  lemma {:induction false} CameToUpload(run: seq<Step>, n: nat, l: Lease) returns (i: nat)
    requires IsRun(EMPTY, run) && n <= |run| && l in At(run, n).attempts && At(run, n).attempts[l].phase.Uploading?
    ensures i < n && l in At(run, i).attempts && At(run, i).attempts[l].phase == Before(MediaUploading)
    ensures At(run, i).attempts[l].job == At(run, n).attempts[l].job && At(run, i).attempts[l].files == At(run, n).attempts[l].files
    ensures MovesTo(run, i, At(run, n).attempts[l].job.media, l, MediaUploading)
    decreases n
  {
    hide Do, Enabled, IsRun, At, AttemptsIssued, MovesTo;
    i := BroughtBy(run, n, l);
    NextAt(run, i);
    IssuedAt(run, i);
    var a := At(run, n).attempts[l];
    if a.phase.uploaded == {} {
      WorkIsEntered(At(run, i), run[i], l, a);
      Moved(run, i, l);
    } else {
      UploadsGoOn(At(run, i), run[i], l, a);
      i := CameToUpload(run, i, l);
    }
  }

  lemma Moved(run: seq<Step>, i: nat, l: Lease)
    requires IsRun(EMPTY, run) && i < |run| && run[i].SetStatus? && run[i].lease == l && Commits(At(run, i), l)
    requires Enabled(At(run, i), run[i])
    ensures var a := At(run, i).attempts[l]; MovesTo(run, i, a.job.media, l, a.phase.next)
  {
    hide IsRun, At;
    NextAt(run, i);
  }

  // What it did before it was ready for the next step.
  lemma CameFrom(run: seq<Step>, n: nat, l: Lease) returns (i: nat)
    requires IsRun(EMPTY, run) && n <= |run| && l in At(run, n).attempts
    requires At(run, n).attempts[l].phase.Before? && At(run, n).attempts[l].phase.next != MediaProbing
    ensures i < n && run[i].Proceed? && run[i].lease == l && l in At(run, i).attempts
    ensures At(run, i).attempts[l].job == At(run, n).attempts[l].job && At(run, i).attempts[l].phase.In?
    ensures var at, next := At(run, i).attempts[l].phase.at, At(run, n).attempts[l].phase.next;
      || (at == MediaProbing && next == MediaDownloading) || (at == MediaDownloading && next == MediaPackaging)
      || (at == MediaPackaging && next == MediaUploading && run[i].files == At(run, n).attempts[l].files)
  {
    hide Do, Enabled, IsRun, At, AttemptsIssued;
    i := BroughtBy(run, n, l);
    IssuedAt(run, i);
    WorkIsDone(At(run, i), run[i], l, At(run, n).attempts[l]);
  }

  // Whatever is published went through every step in order, under one lease,
  // and is made of the files that packaging handed over.
  lemma PublishedWasMade(run: seq<Step>, m: MediaId, l: Lease)
    returns (probing: nat, downloading: nat, packaging: nat, packed: nat, uploading: nat, published: nat)
    requires IsRun(EMPTY, run) && Publishes(Final(EMPTY, run), Prefix(m, l))
    ensures probing < downloading < packaging < packed < uploading < published < |run|
    ensures MovesTo(run, probing, m, l, MediaProbing) && MovesTo(run, downloading, m, l, MediaDownloading)
    ensures MovesTo(run, packaging, m, l, MediaPackaging) && MovesTo(run, uploading, m, l, MediaUploading)
    ensures l in Final(EMPTY, run).attempts && run[packed] == Proceed(l, Final(EMPTY, run).attempts[l].files)
    ensures l in At(run, packed).attempts && At(run, packed).attempts[l].phase == In(MediaPackaging)
    ensures run[published].Publish? && run[published].lease == l
  {
    hide Do, Enabled, IsRun, MovesTo, AttemptsIssued, Late;
    var w := Final(EMPTY, run);
    PrefixRuns(EMPTY, run, |run|);
    assert At(run, |run|) == w;
    hide At;
    var row :| row in w.media && w.media[row].prefix == Some(Prefix(m, l));
    published := PublishedBy(run, |run|, row, Prefix(m, l));
    IssuedAt(run, published);
    LeaseIs(At(run, published), run[published].lease, m, l);
    uploading := CameToUpload(run, published, l);
    packed := CameFrom(run, uploading, l);
    packaging := CameTo(run, packed, l);
    var i := CameFrom(run, packaging, l);
    downloading := CameTo(run, i, l);
    var j := CameFrom(run, downloading, l);
    probing := CameTo(run, j, l);
    UploadingIsLate(At(run, published).attempts[l]);
    FilesStay(run, published, |run|, l);
  }

  lemma LeaseIs(w: World, lease: Lease, m: MediaId, l: Lease)
    requires AttemptsIssued(w) && lease in w.attempts && PackageOf(w.attempts[lease]) == Prefix(m, l)
    ensures lease == l && w.attempts[l].job.media == m
  {
  }

  lemma UploadingIsLate(a: Attempt)
    requires a.phase.Uploading?
    ensures Late(a.phase)
  {
  }

  // ---------------------------------------------------------------------
  // What the fenced writes leave
  // ---------------------------------------------------------------------

  predicate WritesFenced(s: Step) { s.SetStatus? || s.Progress? || s.Publish? || s.MarkFailed? }

  // A write that commits also renews the lease, so nothing recovers the job
  // for a whole lease from then on; one that does not changes no media row.
  lemma WritesRenew(w: World, s: Step, length: int, u: int)
    requires Enabled(w, s) && WritesFenced(s)
    ensures var v, id := Do(w, s), w.attempts[s.lease].job.id;
      if Commits(w, s.lease)
      then id in v.jobs && J.Owned(v.jobs, id, s.lease) && (u <= s.now + length ==> !J.Stale(v.jobs[id], u, length))
      else v.media == w.media && v.jobs == w.jobs
  {
  }

  // Of the row that an attempt works on: a new step begins with no progress,
  // progress is all that a report changes, and only a publication says where
  // the package is.
  lemma WritesMean(w: World, s: Step)
    requires Enabled(w, s) && WritesFenced(s) && Commits(w, s.lease)
    ensures var v, a := Do(w, s), w.attempts[s.lease];
      var m := a.job.media;
      var r := w.media[m];
      && v.media.Keys == w.media.Keys && (forall x :: x in w.media && x != m ==> v.media[x] == w.media[x])
      && v.media[m].details == r.details
      && match s
         case SetStatus(_, _) => v.media[m].progress == 0.0 && v.media[m].prefix == r.prefix
         case Progress(_, value, _) => v.media[m].progress == value && v.media[m].status == r.status && v.media[m].prefix == r.prefix
         case Publish(_, _) =>
           v.media[m].status == MediaReady && v.media[m].progress == 1.0 && v.media[m].prefix == Some(Prefix(m, a.job.lease))
         case _ => v.media[m].status == MediaFailed && v.media[m].prefix == r.prefix && v.media[m].progress == r.progress
  {
  }
}
