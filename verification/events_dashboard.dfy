/** The organiser's dashboard: the list of the organiser's events and the
    summary counters, which are taken from the first (most recent) event only. */
module EventsDashboard {
  import opened Common
  import opened Entities
  import EventView

  datatype Stats = Stats(totalPhotos: nat, totalVideos: nat, totalFaces: nat)

  const InitialStats: Stats := Stats(0, 0, 0)

  predicate IsPhoto(p: Post) { p.kind == "photo" }
  predicate IsVideo(p: Post) { p.kind == "video" }

  /** The counters for one event's posts and face tags. */
  function EventStats(posts: seq<Post>, tags: seq<FaceTag>): Stats
  {
    Stats(Count(posts, IsPhoto), Count(posts, IsVideo), EventView.PeopleCount(tags))
  }

  /** Photos and videos are counted apart and other kinds in neither, so the
      two counters never exceed the number of posts; faces counts distinct
      non-empty names, so never more than there are tags. */
  lemma {:induction false} EventStatsBounds(posts: seq<Post>, tags: seq<FaceTag>)
    ensures EventStats(posts, tags).totalPhotos + EventStats(posts, tags).totalVideos <= |posts|
    ensures EventStats(posts, tags).totalFaces <= |tags|
    ensures forall p :: p in posts && p.kind != "photo" && p.kind != "video" ==>
      p !in Filter(posts, IsPhoto) && p !in Filter(posts, IsVideo)
  {
    CountDisjoint(posts, IsPhoto, IsVideo);
    FilterMembers(posts, IsPhoto);
    FilterMembers(posts, IsVideo);
  }

  datatype Dashboard = Dashboard(events: seq<Event>, stats: Stats, loading: bool)

  predicate PostOf(eventId: string, p: Post) { p.eventId == eventId }
  predicate TagOf(eventId: string, t: FaceTag) { t.eventId == eventId }

  /** `fetchEvents`: the organiser's events, newest first, then the posts and
      tags of the first of them, queried from the post and tag stores (`None`
      when a query fails). A failed fetch at any step leaves the counters as
      they were; loading always ends. */
  function FetchEvents(prior: Dashboard, events: Result<seq<Event>>,
                       postStore: Option<seq<Post>>, tagStore: Option<seq<FaceTag>>): (r: Dashboard)
    ensures !r.loading
    ensures events.Ok? ==> r.events == events.value
    ensures events.Err? ==> r.events == prior.events
    ensures events.Err? || events.value == [] || postStore.None? || tagStore.None? ==> r.stats == prior.stats
    ensures events.Ok? && events.value != [] && postStore.Some? && tagStore.Some? ==>
      var id := events.value[0].id;
      r.stats == EventStats(Filter(postStore.value, p => PostOf(id, p)), Filter(tagStore.value, t => TagOf(id, t)))
  {
    if events.Err? then prior.(loading := false)
    else if events.value == [] || postStore.None? || tagStore.None? then Dashboard(events.value, prior.stats, false)
    else
      var id := events.value[0].id;
      Dashboard(events.value,
                EventStats(Filter(postStore.value, p => PostOf(id, p)), Filter(tagStore.value, t => TagOf(id, t))),
                false)
  }

  lemma {:induction false} FilterNone<T>(s: seq<T>, p: T -> bool)
    requires forall x :: x in s ==> !p(x)
    ensures Filter(s, p) == []
    decreases |s|
  {
    if s != [] {
      FilterNone(s[1..], p);
    }
  }

  /** Only the first event counts: posts and tags of any other event leave
      the counters unchanged. */
  lemma {:induction false} OnlyFirstEventCounts(prior: Dashboard, events: seq<Event>, posts: seq<Post>, otherPosts: seq<Post>,
                             tags: seq<FaceTag>, otherTags: seq<FaceTag>)
    requires events != []
    requires forall p :: p in otherPosts ==> p.eventId != events[0].id
    requires forall t :: t in otherTags ==> t.eventId != events[0].id
    ensures FetchEvents(prior, Ok(events), Some(posts + otherPosts), Some(tags + otherTags))
         == FetchEvents(prior, Ok(events), Some(posts), Some(tags))
  {
    var id := events[0].id;
    FilterAppend(posts, otherPosts, p => PostOf(id, p));
    FilterNone(otherPosts, p => PostOf(id, p));
    FilterAppend(tags, otherTags, t => TagOf(id, t));
    FilterNone(otherTags, t => TagOf(id, t));
    assert Filter(posts, p => PostOf(id, p)) + [] == Filter(posts, p => PostOf(id, p));
    assert Filter(tags, t => TagOf(id, t)) + [] == Filter(tags, t => TagOf(id, t));
  }

  /** An organiser without events keeps the zero counters the page starts with. */
  lemma {:induction false} NoEventsZeroStats(postStore: Option<seq<Post>>, tagStore: Option<seq<FaceTag>>)
    ensures FetchEvents(Dashboard([], InitialStats, true), Ok([]), postStore, tagStore) == Dashboard([], InitialStats, false)
  {
  }
}
