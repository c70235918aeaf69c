/** The public video endpoints: the active videos of a position, and the hero video. */
module VideoViews {
  import opened Wrappers
  import Ordering
  import opened VideoModels

  /** The rows a request selects: active, and of the requested position when one is given. */
  predicate Selected(v: Video, position: Option<string>)
  {
    v.isActive && (!Truthy(position) || v.position == position.value)
  }

  /**
   * get_active_videos: filter(is_active=True), then filter(position=...) when
   * the position parameter is truthy, ordered by order then newest first.
   */
  function ActiveVideos(videos: seq<Video>, position: Option<string>): (r: seq<Video>)
    ensures forall v :: v in r <==> v in videos && Selected(v, position)
    ensures Ordering.SortedBy(r, VideoKey)
    ensures multiset(r) == multiset(Ordering.Filter(videos, v => Selected(v, position)))
  {
    var chosen := Ordering.Filter(videos, v => Selected(v, position));
    var r := Ordering.SortBy(chosen, VideoKey);
    assert forall v :: v in r <==> v in multiset(r);
    assert forall v :: v in chosen <==> v in multiset(chosen);
    r
  }

  /** Without a position (or with an empty one) every active video is listed. */
  lemma NoPositionNoFilter(videos: seq<Video>, v: Video)
    ensures v in ActiveVideos(videos, None) <==> v in videos && v.isActive
    ensures ActiveVideos(videos, Some("")) == ActiveVideos(videos, None)
  {
    Ordering.FilterCongruent(videos, v => Selected(v, Some("")), v => Selected(v, None));
  }

  datatype HeroResponse = HeroFound(video: Video) | HeroNotFound(status: nat, message: string)

  /**
   * get_hero_video: the first active hero video in Meta order, or a 404 with
   * "No hero video found".
   */
  function HeroVideo(videos: seq<Video>): (r: HeroResponse)
    ensures r.HeroNotFound? <==> forall v :: v in videos ==> !(v.isActive && v.position == "hero")
    ensures r.HeroNotFound? ==> r.status == 404 && r.message == "No hero video found"
    ensures r.HeroFound? ==> r.video in videos && r.video.isActive && r.video.position == "hero"
    ensures r.HeroFound? ==>
      forall v :: v in videos && v.isActive && v.position == "hero" ==> Ordering.KeyLe(VideoKey(r.video), VideoKey(v))
  {
    var heroes := ActiveVideos(videos, Some("hero"));
    assert Truthy(Some("hero"));
    if |heroes| == 0 then HeroNotFound(404, "No hero video found")
    else
      Ordering.FirstIsMinimal(heroes, VideoKey);
      HeroFound(heroes[0])
  }

  /** The hero endpoint shows the head of the hero list of the listing endpoint. */
  lemma HeroIsHeadOfHeroList(videos: seq<Video>)
    ensures HeroVideo(videos).HeroFound? <==> |ActiveVideos(videos, Some("hero"))| > 0
    ensures HeroVideo(videos).HeroFound? ==> HeroVideo(videos).video == ActiveVideos(videos, Some("hero"))[0]
  {
  }
}
