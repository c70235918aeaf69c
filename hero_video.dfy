/**
 * The add_hero_video script: get_or_create of the active hero row, then, on
 * an existing row, an update of its title and of whichever sources were given.
 */
module AddHeroVideo {
  import opened Wrappers
  import opened VideoModels

  /** The get_or_create lookup: position='hero', is_active=True. */
  predicate IsHeroRow(v: Video) { v.position == "hero" && v.isActive }

  /** The indices of the rows the lookup matches, in table order. */
  function HeroIndices(rows: seq<Video>): (r: seq<nat>)
    ensures forall i: nat :: i in r <==> i < |rows| && IsHeroRow(rows[i])
    ensures forall k :: 0 <= k < |r| ==> r[k] < |rows|
    ensures |r| <= |rows|
  {
    if |rows| == 0 then []
    else
      var init := HeroIndices(rows[..|rows| - 1]);
      assert forall i :: 0 <= i < |rows| - 1 ==> rows[..|rows| - 1][i] == rows[i];
      if IsHeroRow(rows[|rows| - 1]) then init + [|rows| - 1] else init
  }

  datatype HeroOutcome = Created(video: Video) | Updated(video: Video) | MultipleObjectsReturned

  /** The row get_or_create inserts when nothing matches: the defaults plus the lookup fields. */
  function NewHero(id: nat, title: string, vimeoId: Option<string>, videoUrl: Option<string>, now: int): (v: Video)
    ensures IsHeroRow(v) && v.order == 0 && v.videoFile.None?
    ensures v.title == title && v.vimeoId == vimeoId && v.videoUrl == videoUrl
  {
    Video(id, title, vimeoId, videoUrl, None, "hero", true, 0, now)
  }

  /** The update of an existing row: the title always, each source only when given. */
  function UpdateHero(v: Video, title: string, vimeoId: Option<string>, videoUrl: Option<string>): (r: Video)
    ensures r.title == title && r.isActive
    ensures r.vimeoId == (if Truthy(vimeoId) then vimeoId else v.vimeoId)
    ensures r.videoUrl == (if Truthy(videoUrl) then videoUrl else v.videoUrl)
    ensures r.id == v.id && r.videoFile == v.videoFile && r.position == v.position
      && r.order == v.order && r.createdAt == v.createdAt
  {
    var a := v.(title := title);
    var b := if Truthy(vimeoId) then a.(vimeoId := vimeoId) else a;
    var c := if Truthy(videoUrl) then b.(videoUrl := videoUrl) else b;
    c.(isActive := true)
  }

  /** Running the script twice with the same arguments changes nothing the second time. */
  lemma UpdateHeroIdempotent(v: Video, title: string, vimeoId: Option<string>, videoUrl: Option<string>)
    ensures UpdateHero(UpdateHero(v, title, vimeoId, videoUrl), title, vimeoId, videoUrl)
      == UpdateHero(v, title, vimeoId, videoUrl)
  {
  }

  /** A hero row stays a hero row when it is updated. */
  lemma UpdateKeepsHero(v: Video, title: string, vimeoId: Option<string>, videoUrl: Option<string>)
    requires IsHeroRow(v)
    ensures IsHeroRow(UpdateHero(v, title, vimeoId, videoUrl))
  {
  }

  /**
   * add_hero_video: with no matching row one is created; with exactly one it
   * is updated in place; with several, get() raises MultipleObjectsReturned
   * and nothing changes.
   */
  method AddHeroVideo(store: VideoStore, vimeoId: Option<string>, videoUrl: Option<string>, title: string, now: int)
    returns (outcome: HeroOutcome)
    requires store.Valid()
    modifies store
    ensures store.Valid()
    ensures outcome.Created? <==> |HeroIndices(old(store.rows))| == 0
    ensures outcome.Updated? <==> |HeroIndices(old(store.rows))| == 1
    ensures outcome.Created? ==>
      outcome.video == NewHero(old(store.nextId), title, vimeoId, videoUrl, now)
      && store.rows == old(store.rows) + [outcome.video] && store.nextId == old(store.nextId) + 1
    ensures outcome.Updated? ==>
      var i := HeroIndices(old(store.rows))[0];
      outcome.video == UpdateHero(old(store.rows)[i], title, vimeoId, videoUrl)
      && store.rows == old(store.rows)[i := outcome.video] && store.nextId == old(store.nextId)
    ensures outcome.MultipleObjectsReturned? ==> store.rows == old(store.rows) && store.nextId == old(store.nextId)
    ensures !outcome.MultipleObjectsReturned? ==> IsHeroRow(outcome.video) && outcome.video.title == title
  {
    var matches := HeroIndices(store.rows);
    if |matches| > 1 {
      return MultipleObjectsReturned;
    }
    if |matches| == 0 {
      var video := NewHero(store.nextId, title, vimeoId, videoUrl, now);
      AppendKeepsIds(store.rows, store.nextId, video);
      store.rows := store.rows + [video];
      store.nextId := store.nextId + 1;
      return Created(video);
    }
    var i := matches[0];
    assert i in matches;
    var video := store.rows[i];
    video := video.(title := title);
    if Truthy(vimeoId) {
      video := video.(vimeoId := vimeoId);
    }
    if Truthy(videoUrl) {
      video := video.(videoUrl := videoUrl);
    }
    video := video.(isActive := true);
    ReplaceKeepsIds(store.rows, store.nextId, i, video);
    store.rows := store.rows[i := video];
    return Updated(video);
  }
}
