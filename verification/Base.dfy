// Types and sequence facts shared by every module.
module Base {
  datatype Option<+T> = None | Some(value: T)

  // Identifiers are drawn from an unbounded supply and compared only for equality.
  type ItemId = int
  type MediaId = int
  type UserId = int
  type ConnId = int
  type JobId = int
  type Lease = int

  // The ingest lifecycle of a media row.
  datatype MediaStatus =
    | MediaQueued
    | MediaProbing
    | MediaDownloading
    | MediaPackaging
    | MediaUploading
    | MediaReady
    | MediaFailed

  // One entry of a room's playlist. Ranks are the numbers that the stored
  // zero-padded strings spell.
  datatype Item = Item(
    id: ItemId,
    media: MediaId,
    addedBy: Option<UserId>,
    rank: nat,
    votes: nat,
    createdAt: int,
    playedAt: Option<int>)
}
