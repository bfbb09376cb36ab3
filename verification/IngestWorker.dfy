// The parts of the ingest that write in place: the media rows behind the
// fence, the upload of a directory, and the janitor's scan of the bucket.
// Each method is one step (or, for the loops, one series of steps) of the
// protocol in IngestProtocol.
module IngestWorker {
  import opened Base
  import J = Jobs
  import P = IngestProtocol

  // An object as the bucket lists it.
  datatype Object = Object(key: P.Key, modified: int)

  class Worker {
    const queue: J.Queue
    var media: map<MediaId, P.MediaRow>
    var objects: set<P.Key>

    // The shared part of a protocol world, as this process sees it.
    ghost predicate Shows(w: P.World)
      reads this, queue
    {
      w.jobs == queue.rows && w.media == media && w.objects == objects
    }

    constructor (queue: J.Queue)
      ensures this.queue == queue && media == map[] && objects == {}
    {
      this.queue := queue;
      media, objects := map[], {};
    }

    // Fenced: fn's row replaces the media row only under the job's row lock.
    // A media row that is gone fails the transaction, which then leaves the
    // lease as it was.
    method Fenced(j: J.Job, row: P.MediaRow, now: int, ghost w: P.World) returns (committed: bool)
      requires Shows(w) && j.lease in w.attempts && w.attempts[j.lease].job == j
      modifies this`media, queue`rows
      ensures committed <==> P.Commits(w, j.lease)
      ensures queue.rows == P.Fenced(w, j.lease, now, row).jobs
      ensures media == P.Fenced(w, j.lease, now, row).media
    {
      if j.media !in media {
        return false;
      }
      var lock := queue.Renew(j, now);
      if lock.LeaseLost? {
        return false;
      }
      media := media[j.media := row];
      committed := true;
    }

    // The media row as Handle read it, with an empty one standing in when
    // it is gone.
    method Read(m: MediaId) returns (row: P.MediaRow)
      ensures row == if m in media then media[m] else P.MediaRow(MediaQueued, 0.0, 0, None)
    {
      row := P.MediaRow(MediaQueued, 0.0, 0, None);
      if m in media {
        row := media[m];
      }
    }

    method SetStatus(j: J.Job, status: MediaStatus, now: int, ghost w: P.World) returns (committed: bool)
      requires Shows(w) && j.lease in w.attempts && w.attempts[j.lease].job == j
      requires w.attempts[j.lease].phase == P.Before(status)
      modifies this`media, queue`rows
      ensures Shows(P.Do(w, P.SetStatus(j.lease, now)))
      ensures committed <==> P.Commits(w, j.lease)
    {
      var row := Read(j.media);
      committed := Fenced(j, row.(status := status, progress := 0.0), now, w);
    }

    method Progress(j: J.Job, value: real, now: int, ghost w: P.World)
      requires Shows(w) && j.lease in w.attempts && w.attempts[j.lease].job == j
      requires w.attempts[j.lease].phase.In?
      modifies this`media, queue`rows
      ensures Shows(P.Do(w, P.Progress(j.lease, value, now)))
    {
      var row := Read(j.media);
      var _ := Fenced(j, row.(progress := value), now, w);
    }

    method Publish(j: J.Job, now: int, ghost w: P.World) returns (committed: bool)
      requires Shows(w) && j.lease in w.attempts && w.attempts[j.lease].job == j
      requires w.attempts[j.lease].phase == P.Uploading(w.attempts[j.lease].files)
      modifies this`media, queue`rows
      ensures Shows(P.Do(w, P.Publish(j.lease, now)))
      ensures committed <==> P.Commits(w, j.lease)
    {
      var row := Read(j.media);
      committed := Fenced(j, row.(status := MediaReady, progress := 1.0, prefix := Some(P.Prefix(j.media, j.lease))), now, w);
    }

    method MarkFailed(j: J.Job, now: int, ghost w: P.World) returns (committed: bool)
      requires Shows(w) && j.lease in w.attempts && w.attempts[j.lease].job == j
      requires w.attempts[j.lease].phase == P.Broken
      modifies this`media, queue`rows
      ensures Shows(P.Do(w, P.MarkFailed(j.lease, now)))
      ensures committed <==> P.Commits(w, j.lease)
    {
      var row := Read(j.media);
      committed := Fenced(j, row.(status := MediaFailed), now, w);
    }

    // UploadDir: the files of the directory one object after the other.
    method UploadDir(j: J.Job, files: seq<nat>)
      modifies this`objects
      ensures objects == old(objects) + set n | n in files :: P.Key(P.Prefix(j.media, j.lease), n)
    {
      for i := 0 to |files|
        invariant objects == old(objects) + set n | n in files[..i] :: P.Key(P.Prefix(j.media, j.lease), n)
      {
        objects := objects + {P.Key(P.Prefix(j.media, j.lease), files[i])};
        assert files[..i + 1] == files[..i] + [files[i]];
      }
      assert files[..|files|] == files;
    }
  }

  // PruneAttempts, up to its query: the packages whose newest object is
  // older than the cutoff. A modification time of zero is Go's zero time,
  // which never counts as newer than a missing entry.
  method Candidates(listing: seq<Object>, olderThan: int) returns (candidates: set<P.Prefix>)
    requires forall o :: o in listing ==> o.modified > 0
    ensures forall p :: p in candidates <==>
      (exists o :: o in listing && o.key.prefix == p) && (forall o :: o in listing && o.key.prefix == p ==> o.modified < olderThan)
  {
    var latest: map<P.Prefix, int> := map[];
    for i := 0 to |listing|
      invariant forall p :: p in latest <==> exists o :: o in listing[..i] && o.key.prefix == p
      invariant forall o :: o in listing[..i] ==> o.modified <= latest[o.key.prefix]
      invariant forall p :: p in latest ==> exists o :: o in listing[..i] && o.key.prefix == p && o.modified == latest[p]
    {
      var obj := listing[i];
      var prefix := obj.key.prefix;
      assert listing[..i + 1] == listing[..i] + [obj];
      if obj.modified > (if prefix in latest then latest[prefix] else 0) {
        latest := latest[prefix := obj.modified];
      }
      assert forall p :: p in latest && p != prefix ==> exists o :: o in listing[..i] && o.key.prefix == p && o.modified == latest[p];
      assert obj in listing[..i + 1];
    }
    assert listing[..|listing|] == listing;
    candidates := set p | p in latest && latest[p] < olderThan;
  }
}
