// The stored side of one room: queue rows, vote rows, the media rows they
// refer to and the playback columns. The statements are functions on a Db;
// the Repo class of Repository runs them in place.
module Store {
  import opened Base
  import opened Order
  import C = Clock

  datatype Row = Row(media: MediaId, addedBy: Option<UserId>, rank: nat, createdAt: int, playedAt: Option<int>)

  datatype Media = Media(status: MediaStatus, duration: int)

  // used: every item id ever stored, so ids are never reused.
  datatype Db = Db(
    rows: Rows,
    votes: Votes,
    media: map<MediaId, Media>,
    playback: C.Playback,
    used: set<ItemId>)

  // A store without rows, and a stopped clock.
  const EMPTY := Db(map[], {}, map[], C.Playback(None, false, 0, 0, C.NORMAL_RATE), {})

  const HISTORY_KEPT: nat := 20

  type Rows = map<ItemId, Row>
  type Votes = set<(ItemId, UserId)>

  predicate QueuedIn(rows: Rows, id: ItemId) { id in rows && rows[id].playedAt.None? }
  predicate Queued(db: Db, id: ItemId) { QueuedIn(db.rows, id) }
  predicate InHistory(db: Db, id: ItemId) { id in db.rows && db.rows[id].playedAt.Some? }

  function History(db: Db): set<ItemId> { set id | id in db.rows && InHistory(db, id) }

  function VotersIn(votes: Votes, id: ItemId): set<UserId> {
    set v | v in votes && v.0 == id :: v.1
  }

  // A row as the queries return it, with its vote count.
  function Show(id: ItemId, r: Row, votes: Votes): Item {
    Item(id, r.media, r.addedBy, r.rank, |VotersIn(votes, id)|, r.createdAt, r.playedAt)
  }

  function ItemOf(db: Db, id: ItemId): Item
    requires id in db.rows
  {
    Show(id, db.rows[id], db.votes)
  }

  // ---------------------------------------------------------------------
  // Queries
  // ---------------------------------------------------------------------

  // What ListQueue may return: the unplayed rows, by rank, then by age.
  ghost predicate IsListing(db: Db, q: seq<Item>) { Lists(db.rows, db.votes, q) }

  ghost predicate Lists(rows: Rows, votes: Votes, q: seq<Item>) {
    && Distinct(q)
    && (forall it :: it in q ==> QueuedIn(rows, it.id) && it == Show(it.id, rows[it.id], votes))
    && (forall id :: QueuedIn(rows, id) ==> exists it :: it in q && it.id == id)
    && (forall i, j :: 0 <= i < j < |q| ==> NoLaterRank(q[i], q[j]))
  }

  predicate NoLaterRank(a: Item, b: Item) {
    a.rank < b.rank || (a.rank == b.rank && a.createdAt <= b.createdAt)
  }

  // What ListPlayed may return: the most recently played, newest first.
  ghost predicate IsHistory(db: Db, p: seq<Item>) {
    && Distinct(p) && |p| <= HISTORY_KEPT
    && (forall it :: it in p ==> InHistory(db, it.id) && it == ItemOf(db, it.id))
    && (forall i, j :: 0 <= i < j < |p| ==> p[i].playedAt.value >= p[j].playedAt.value)
    && (forall id, it :: InHistory(db, id) && it in p && it.id != id && db.rows[id].playedAt.value > it.playedAt.value ==>
          exists x :: x in p && x.id == id)
    && (|p| < HISTORY_KEPT ==> forall id :: InHistory(db, id) ==> exists it :: it in p && it.id == id)
  }

  ghost function Highest(s: set<nat>): (m: nat)
    ensures forall x :: x in s ==> x <= m
    ensures s == {} ==> m == 0
    ensures s != {} ==> m in s
  {
    if s == {} then 0
    else
      var x :| x in s;
      var m := Highest(s - {x});
      assert forall y :: y in s ==> y == x || y in s - {x};
      if x > m then x else m
  }

  // The highest rank in the queue, 0 when it is empty.
  ghost function TopRank(rows: Rows): nat {
    Highest(set id | id in rows && QueuedIn(rows, id) :: rows[id].rank)
  }

  function Voters(db: Db): set<UserId> { set v | v in db.votes :: v.1 }

  function VotesOf(db: Db, u: UserId): set<ItemId> { set v | v in db.votes && v.1 == u :: v.0 }

  // What each user voted for.
  type Flags = map<UserId, set<ItemId>>

  predicate Flag(flags: Flags, u: UserId, id: ItemId) { u in flags && id in flags[u] }

  function VotesByUser(db: Db): Flags {
    map u | u in Voters(db) :: VotesOf(db, u)
  }

  function MediaFor(db: Db, items: set<MediaId>): map<MediaId, Media> {
    map m | m in db.media && m in items :: db.media[m]
  }

  // ---------------------------------------------------------------------
  // Statements
  // ---------------------------------------------------------------------

  ghost function Inserted(db: Db, id: ItemId, media: MediaId, addedBy: Option<UserId>, createdAt: int): Db {
    db.(rows := db.rows[id := Row(media, addedBy, TopRank(db.rows) + 1, createdAt, None)], used := db.used + {id})
  }

  function MarkedPlayed(db: Db, id: ItemId, at: int): Db {
    if Queued(db, id) then db.(rows := db.rows[id := db.rows[id].(playedAt := Some(at))]) else db
  }

  // A deleted row takes its votes along and empties a reference from the
  // playback columns, which keep their other values.
  function Deleted(db: Db, ids: set<ItemId>): Db {
    db.(rows := db.rows - ids,
        votes := (set v | v in db.votes && v.0 !in ids),
        playback := if db.playback.current.Some? && db.playback.current.value in ids && db.playback.current.value in db.rows
                    then db.playback.(current := None) else db.playback)
  }

  // The last place of an id in a list, its length when it is not there.
  function PlaceOf(ids: seq<ItemId>, id: ItemId): (i: nat)
    ensures i <= |ids|
    ensures i < |ids| ==> ids[i] == id
    ensures i == |ids| <==> id !in ids
    ensures forall j :: i < j < |ids| ==> ids[j] != id
  {
    if ids == [] then 0
    else if ids[|ids| - 1] == id then |ids| - 1
    else
      var i := PlaceOf(ids[..|ids| - 1], id);
      if i == |ids| - 1 then |ids| else i
  }

  // The first id gets rank 1, the next rank 2, and so on.
  function Ranked(db: Db, ids: seq<ItemId>): Db {
    db.(rows := (map id | id in db.rows :: if id in ids then db.rows[id].(rank := PlaceOf(ids, id) + 1) else db.rows[id]))
  }

  predicate PlayedNoLater(db: Db, a: ItemId, b: ItemId) {
    InHistory(db, a) && InHistory(db, b) &&
    (db.rows[a].playedAt.value < db.rows[b].playedAt.value
     || (db.rows[a].playedAt == db.rows[b].playedAt && db.rows[a].createdAt <= db.rows[b].createdAt))
  }

  // The history in the order it was played.
  ghost predicate IsLap(db: Db, order: seq<ItemId>) {
    && (forall i, j :: 0 <= i < j < |order| ==> order[i] != order[j])
    && (forall id :: id in order <==> InHistory(db, id))
    && (forall i, j :: 0 <= i < j < |order| ==> PlayedNoLater(db, order[i], order[j]))
  }

  ghost function Requeued(db: Db, order: seq<ItemId>): Db {
    db.(rows := (map id | id in db.rows ::
          if id in order then db.rows[id].(playedAt := None, rank := TopRank(db.rows) + PlaceOf(order, id) + 1) else db.rows[id]))
  }

  function Voted(db: Db, id: ItemId, user: UserId): Db {
    if (id, user) in db.votes then db.(votes := db.votes - {(id, user)}) else db.(votes := db.votes + {(id, user)})
  }
}
