// The ingest lease protocol as interleaved steps: claims, renewals, fenced
// writes, uploads one object at a time, recovery, and the janitor's list,
// check and delete. Any number of attempts and janitors run at once.
module IngestProtocol {
  import opened Base
  import J = Jobs

  // The package directory of one attempt, media/<media>/<lease>/.
  datatype Prefix = Prefix(media: MediaId, lease: Lease)

  // An object key is a package directory and a file name in it.
  datatype Key = Key(prefix: Prefix, name: nat)

  // details: title, duration and chapters, which the probe writes unfenced.
  datatype MediaRow = MediaRow(status: MediaStatus, progress: real, details: int, prefix: Option<Prefix>)

  // Where an attempt stands in Handle and process.
  datatype Phase =
    | Start                          // claimed, the media row not read yet
    | Before(next: MediaStatus)      // about to move the media to next
    | In(at: MediaStatus)            // working inside a step
    | Uploading(uploaded: set<nat>)
    | Broken                         // process returned an error
    | Returned(ok: bool)             // the handler is done, the outcome not recorded
    | Ended                          // recorded, dropped, or the process died

  // files: what the attempt's output directory holds once it is packaged.
  datatype Attempt = Attempt(job: J.Job, phase: Phase, files: set<nat>)

  datatype Janitor = Listing(candidates: set<Prefix>) | Deleting(unused: set<Prefix>)

  datatype World = World(
    jobs: J.Table,
    leases: set<Lease>,              // every token ever given out
    media: map<MediaId, MediaRow>,
    objects: set<Key>,
    attempts: map<Lease, Attempt>,
    janitors: map<nat, Janitor>)

  datatype Step =
    | NewMedia(media: MediaId, id: JobId, now: int)
    | Claim(id: JobId, lease: Lease, now: int)
    | Renew(lease: Lease, now: int)
    | Load(lease: Lease)
    | SetStatus(lease: Lease, now: int)
    | Probed(lease: Lease, details: int)
    | Progress(lease: Lease, value: real, now: int)
    | Proceed(lease: Lease, files: set<nat>)
    | Upload(lease: Lease, name: nat)
    | Publish(lease: Lease, now: int)
    | Break(lease: Lease)
    | MarkFailed(lease: Lease, now: int)
    | Record(lease: Lease, permanent: bool, now: int)
    | Die(lease: Lease)
    | Recover(now: int, length: int)
    | RetryJob(id: JobId, now: int)
    | RetryMedia(media: MediaId, id: JobId, now: int)
    | OpenJanitor(j: nat)
    | See(j: nat, key: Key)
    | Check(j: nat)
    | Delete(j: nat, key: Key)

  // ---------------------------------------------------------------------
  // What each step may do and does
  // ---------------------------------------------------------------------

  predicate Owns(w: World, lease: Lease) {
    lease in w.attempts && J.Owned(w.jobs, w.attempts[lease].job.id, lease)
  }

  predicate RunningLease(w: World, lease: Lease) {
    exists id :: id in w.jobs && w.jobs[id].status == J.Running && w.jobs[id].lease == Some(lease)
  }

  predicate Publishes(w: World, p: Prefix) {
    exists m :: m in w.media && w.media[m].prefix == Some(p)
  }

  // The query behind UnusedMediaAttempts.
  predicate Unused(w: World, p: Prefix) {
    !Publishes(w, p) && !RunningLease(w, p.lease)
  }

  function PackageOf(a: Attempt): Prefix { Prefix(a.job.media, a.job.lease) }

  predicate Busy(p: Phase) { p.Before? || p.In? || p.Uploading? }

  // The media step that follows, once the work of a step is done.
  function After(st: MediaStatus): Phase {
    match st
    case MediaProbing => Before(MediaDownloading)
    case MediaDownloading => Before(MediaPackaging)
    case MediaPackaging => Before(MediaUploading)
    case _ => Broken
  }

  function Entered(st: MediaStatus): Phase {
    if st == MediaUploading then Uploading({}) else In(st)
  }

  function AtPhase(w: World, lease: Lease, p: Phase): World
    requires lease in w.attempts
  {
    w.(attempts := w.attempts[lease := w.attempts[lease].(phase := p)])
  }

  // A fenced write: the row lock renews the lease and the media row is
  // replaced, or, when the job is not the attempt's any more, nothing.
  function Fenced(w: World, lease: Lease, now: int, row: MediaRow): World
    requires lease in w.attempts
  {
    var job := w.attempts[lease].job;
    if J.Owned(w.jobs, job.id, lease) && job.media in w.media
    then w.(jobs := J.Renewed(w.jobs, job.id, lease, now), media := w.media[job.media := row])
    else w
  }

  function RowOf(w: World, lease: Lease): MediaRow
    requires lease in w.attempts
  {
    var m := w.attempts[lease].job.media;
    if m in w.media then w.media[m] else MediaRow(MediaQueued, 0.0, 0, None)
  }

  // Whether the fenced transaction commits.
  predicate Commits(w: World, lease: Lease) {
    Owns(w, lease) && w.attempts[lease].job.media in w.media
  }

  predicate Enabled(w: World, s: Step) {
    match s
    case NewMedia(m, id, _) => m !in w.media && id !in w.jobs
    case Claim(id, lease, now) =>
      id in w.jobs && lease !in w.leases && w.jobs[id].status == J.Pending && w.jobs[id].runAt <= now
    case Renew(lease, _) => lease in w.attempts
    case Load(lease) => lease in w.attempts && w.attempts[lease].phase == Start
    case SetStatus(lease, _) => lease in w.attempts && w.attempts[lease].phase.Before?
    case Probed(lease, _) => lease in w.attempts && w.attempts[lease].phase == In(MediaProbing)
    case Progress(lease, _, _) => lease in w.attempts && w.attempts[lease].phase.In?
    case Proceed(lease, _) => lease in w.attempts && w.attempts[lease].phase.In?
    case Upload(lease, name) =>
      lease in w.attempts && w.attempts[lease].phase.Uploading? && name in w.attempts[lease].files
    case Publish(lease, _) =>
      lease in w.attempts && w.attempts[lease].phase == Uploading(w.attempts[lease].files)
    case Break(lease) => lease in w.attempts && Busy(w.attempts[lease].phase)
    case MarkFailed(lease, _) => lease in w.attempts && w.attempts[lease].phase == Broken
    case Record(lease, _, _) => lease in w.attempts && w.attempts[lease].phase.Returned?
    case Die(lease) => lease in w.attempts
    case Recover(_, _) => true
    case RetryJob(_, _) => true
    case RetryMedia(m, id, _) => m in w.media && id !in w.jobs
    case OpenJanitor(j) => true
    case See(j, key) => j in w.janitors && w.janitors[j].Listing? && key in w.objects
    case Check(j) => j in w.janitors && w.janitors[j].Listing?
    case Delete(j, key) => j in w.janitors && w.janitors[j].Deleting? && key.prefix in w.janitors[j].unused
  }

  function Do(w: World, s: Step): World
    requires Enabled(w, s)
  {
    match s
    case NewMedia(m, id, now) =>
      w.(media := w.media[m := MediaRow(MediaQueued, 0.0, 0, None)],
         jobs := J.Enqueued(w.jobs, id, 0, m, J.DEFAULT_MAX_ATTEMPTS, now))
    case Claim(id, lease, now) =>
      var t := J.Claimed(w.jobs, id, lease, now);
      w.(jobs := t, leases := w.leases + {lease},
         attempts := w.attempts[lease := Attempt(J.Attempt(t, id, lease), Start, {})])
    case Renew(lease, now) => w.(jobs := J.Renewed(w.jobs, w.attempts[lease].job.id, lease, now))
    case Load(lease) =>
      var m := w.attempts[lease].job.media;
      AtPhase(w, lease,
        if m !in w.media then Returned(false)
        else if w.media[m].status == MediaReady then Returned(true)
        else Before(MediaProbing))
    case SetStatus(lease, now) =>
      var next := w.attempts[lease].phase.next;
      AtPhase(Fenced(w, lease, now, RowOf(w, lease).(status := next, progress := 0.0)), lease,
              if Commits(w, lease) then Entered(next) else Broken)
    case Probed(lease, details) =>
      var m := w.attempts[lease].job.media;
      if m in w.media then w.(media := w.media[m := w.media[m].(details := details)]) else w
    case Progress(lease, value, now) => Fenced(w, lease, now, RowOf(w, lease).(progress := value))
    case Proceed(lease, files) =>
      var a := w.attempts[lease];
      var next := After(a.phase.at);
      w.(attempts := w.attempts[lease := a.(phase := next, files := if a.phase.at == MediaPackaging then files else a.files)])
    case Upload(lease, name) =>
      var a := w.attempts[lease];
      AtPhase(w, lease, Uploading(a.phase.uploaded + {name}))
        .(objects := w.objects + {Key(PackageOf(a), name)})
    case Publish(lease, now) =>
      var p := PackageOf(w.attempts[lease]);
      AtPhase(Fenced(w, lease, now, RowOf(w, lease).(status := MediaReady, progress := 1.0, prefix := Some(p))), lease,
              if Commits(w, lease) then Returned(true) else Broken)
    case Break(lease) => AtPhase(w, lease, Broken)
    case MarkFailed(lease, now) =>
      AtPhase(Fenced(w, lease, now, RowOf(w, lease).(status := MediaFailed)), lease, Returned(false))
    case Record(lease, permanent, now) =>
      var a := w.attempts[lease];
      AtPhase(w, lease, Ended)
        .(jobs := if a.phase.ok then J.Completed(w.jobs, a.job.id, lease) else J.FailedBy(w.jobs, a.job, permanent, now))
    case Die(lease) => AtPhase(w, lease, Ended)
    case Recover(now, length) => w.(jobs := J.Recovered(w.jobs, now, length))
    case RetryJob(id, now) => w.(jobs := J.Reset(w.jobs, id, now))
    case RetryMedia(m, id, now) =>
      w.(media := w.media[m := w.media[m].(status := MediaQueued, progress := 0.0)],
         jobs := J.Enqueued(w.jobs, id, 0, m, J.DEFAULT_MAX_ATTEMPTS, now))
    case OpenJanitor(j) => w.(janitors := w.janitors[j := Listing({})])
    case See(j, key) => w.(janitors := w.janitors[j := Listing(w.janitors[j].candidates + {key.prefix})])
    case Check(j) => w.(janitors := w.janitors[j := Deleting(set p | p in w.janitors[j].candidates && Unused(w, p))])
    case Delete(_, key) => w.(objects := w.objects - {key})
  }

  const EMPTY := World(map[], {}, map[], {}, map[], map[])

  // A run: every step is enabled where it is taken.
  predicate IsRun(w: World, run: seq<Step>)
    decreases |run|
  {
    run == [] || (Enabled(w, run[0]) && IsRun(Do(w, run[0]), run[1..]))
  }

  function Final(w: World, run: seq<Step>): World
    requires IsRun(w, run)
    decreases |run|
  {
    if run == [] then w else Final(Do(w, run[0]), run[1..])
  }
}
