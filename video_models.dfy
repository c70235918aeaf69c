/**
 * The Video table: one row per landing-page video, with an optional upload,
 * Vimeo id or external URL as its source, a page position, an active flag
 * and a display order.  Rows are kept in a store that the import command and
 * the hero script append to and update.
 */
module VideoModels {
  import opened Wrappers
  import Ordering

  datatype Video = Video(
    id: nat,
    title: string,
    vimeoId: Option<string>,
    videoUrl: Option<string>,
    /** The FileField's stored name, e.g. "videos/intro.mp4". */
    videoFile: Option<string>,
    position: string,
    isActive: bool,
    order: int,
    createdAt: int)

  /** A nullable CharField/FileField is truthy when set and non-empty. */
  predicate Truthy(s: Option<string>) { s.Some? && s.value != "" }

  /** Meta.ordering = ['order', '-created_at']. */
  function VideoKey(v: Video): Ordering.Key
  {
    Ordering.Key(v.order, -v.createdAt)
  }

  predicate IdsUniqueBelow(rows: seq<Video>, nextId: nat)
  {
    && (forall i :: 0 <= i < |rows| ==> rows[i].id < nextId)
    && (forall i, j :: 0 <= i < j < |rows| ==> rows[i].id != rows[j].id)
  }

  /** A row appended with the next id keeps the primary keys distinct. */
  lemma AppendKeepsIds(rows: seq<Video>, nextId: nat, v: Video)
    requires IdsUniqueBelow(rows, nextId) && v.id == nextId
    ensures IdsUniqueBelow(rows + [v], nextId + 1)
  {
  }

  /** A row rewritten in place with its own id keeps the primary keys distinct. */
  lemma ReplaceKeepsIds(rows: seq<Video>, nextId: nat, i: nat, v: Video)
    requires IdsUniqueBelow(rows, nextId) && i < |rows| && v.id == rows[i].id
    ensures IdsUniqueBelow(rows[i := v], nextId)
  {
    var r := rows[i := v];
    assert forall k :: 0 <= k < |r| ==> r[k].id == rows[k].id;
  }

  /** The video table. */
  class VideoStore {
    var rows: seq<Video>
    var nextId: nat

    ghost predicate Valid()
      reads this
    {
      IdsUniqueBelow(rows, nextId)
    }

    constructor(initial: seq<Video>, next: nat)
      requires IdsUniqueBelow(initial, next)
      ensures Valid() && rows == initial && nextId == next
    {
      rows := initial;
      nextId := next;
    }
  }
}
