/** The organiser's event page: face tags gathered from named face groups,
    deleting a post, the identified-people count, and the event-type label
    and cover-image lookups. */
module EventView {
  import opened Common
  import opened Entities
  import FaceRecognition

  /** The tags one group contributes: none when it is unnamed, else one per instance. */
  function GroupTags(g: FaceRecognition.FaceGroup): seq<FaceTag> {
    if Truthy(g.personName) then FaceRecognition.InstanceTags(g.faceId, g.personName, g.instances) else []
  }

  /** The named groups' tags, group by group in order. */
  function TagsOf(groups: seq<FaceRecognition.FaceGroup>): seq<FaceTag>
  {
    if groups == [] then []
    else TagsOf(groups[..|groups| - 1]) + GroupTags(groups[|groups| - 1])
  }

  lemma {:induction false} TagsOfStep(groups: seq<FaceRecognition.FaceGroup>, i: nat)
    requires i < |groups|
    ensures TagsOf(groups[..i + 1]) == TagsOf(groups[..i]) + GroupTags(groups[i])
  {
    assert groups[..i + 1][..i] == groups[..i];
  }

  lemma {:induction false} GroupTagsStep(g: FaceRecognition.FaceGroup, j: nat)
    requires Truthy(g.personName) && j < |g.instances|
    ensures var x := g.instances[j];
      GroupTags(g)[..j + 1] == GroupTags(g)[..j] + [FaceTag(x.postId, x.eventId, g.personName, g.faceId, x.box)]
  {
  }

  /** Every tag comes from an instance of a named group and carries that
      group's name and id and the instance's post, event and position; and
      every instance of every named group yields its tag. */
  lemma {:induction false} TagsOfSpec(groups: seq<FaceRecognition.FaceGroup>)
    ensures forall t :: t in TagsOf(groups) ==>
      exists g, x :: g in groups && g.personName != "" && x in g.instances
        && t == FaceTag(x.postId, x.eventId, g.personName, g.faceId, x.box)
    ensures forall g, x :: g in groups && g.personName != "" && x in g.instances ==>
      FaceTag(x.postId, x.eventId, g.personName, g.faceId, x.box) in TagsOf(groups)
    decreases |groups|
  {
    if groups != [] {
      var n := |groups| - 1;
      var last := groups[n];
      TagsOfSpec(groups[..n]);
      assert groups == groups[..n] + [last];
      forall t | t in GroupTags(last)
        ensures exists g, x :: (g in groups && g.personName != "" && x in last.instances
          && t == FaceTag(x.postId, x.eventId, g.personName, g.faceId, x.box))
      {
        var k :| 0 <= k < |GroupTags(last)| && GroupTags(last)[k] == t;
        assert last.instances[k] in last.instances;
      }
      forall g, x | g in groups && g.personName != "" && x in g.instances
        ensures FaceTag(x.postId, x.eventId, g.personName, g.faceId, x.box) in TagsOf(groups)
      {
        if g == last {
          var k :| 0 <= k < |last.instances| && last.instances[k] == x;
          assert GroupTags(last)[k] == FaceTag(x.postId, x.eventId, g.personName, g.faceId, x.box);
        } else {
          assert g in groups[..n];
        }
      }
    }
  }

  /** The distinct non-empty person names among the tags. */
  function PersonNames(tags: seq<FaceTag>): (r: set<string>)
    ensures forall x :: x in r <==> x != "" && exists t :: t in tags && t.personName == x
    ensures |r| <= |tags|
  {
    if tags == [] then {}
    else
      var n := |tags| - 1;
      var prev := PersonNames(tags[..n]);
      assert tags == tags[..n] + [tags[n]];
      prev + (if tags[n].personName != "" then {tags[n].personName} else {})
  }

  /** The "people identified" count. */
  function PeopleCount(tags: seq<FaceTag>): nat {
    |PersonNames(tags)|
  }

  lemma {:induction false} PersonNamesAppend(a: seq<FaceTag>, b: seq<FaceTag>)
    ensures PersonNames(a + b) == PersonNames(a) + PersonNames(b)
  {
    forall x ensures x in PersonNames(a + b) <==> x in PersonNames(a) + PersonNames(b) {
      if x in PersonNames(a + b) {
        var t :| t in a + b && t.personName == x;
        assert t in a || t in b;
      }
      if x in PersonNames(a) {
        var t :| t in a && t.personName == x;
        assert t in a + b;
      }
      if x in PersonNames(b) {
        var t :| t in b && t.personName == x;
        assert t in a + b;
      }
    }
  }

  /** Reporting the same groups again appends the same tags again, but the
      people count does not change. */
  lemma {:induction false} RepeatedTagsKeepCount(tags: seq<FaceTag>, groups: seq<FaceRecognition.FaceGroup>)
    ensures PeopleCount(tags + TagsOf(groups) + TagsOf(groups)) == PeopleCount(tags + TagsOf(groups))
  {
    PersonNamesAppend(tags + TagsOf(groups), TagsOf(groups));
    PersonNamesAppend(tags, TagsOf(groups));
  }

  /** Labels for the known event types. */
  const HebrewTypes: map<string, string> := map[
    "wedding" := "חתונה",
    "bar_mitzvah" := "בר מצווה",
    "bat_mitzvah" := "בת מצווה",
    "brit" := "ברית",
    "corporate" := "אירוע חברה",
    "other" := "אחר"]

  function EventTypeToHebrew(kind: string): (r: string)
    ensures kind in HebrewTypes ==> r == HebrewTypes[kind]
    ensures kind !in HebrewTypes ==> r == kind
    ensures r == "" <==> kind == ""
  {
    if kind in HebrewTypes && HebrewTypes[kind] != "" then HebrewTypes[kind] else kind
  }

  /** Default covers by event type. */
  const DefaultCovers: map<string, string> := map[
    "wedding" := "https://images.unsplash.com/photo-1465495976277-4387d4b0b4c6?q=80&w=2070",
    "bar_mitzvah" := "https://images.unsplash.com/photo-1560439396-d96eca6a8724?q=80&w=2070",
    "bat_mitzvah" := "https://images.unsplash.com/photo-1524069290683-0457abfe42c3?q=80&w=2070",
    "brit" := "https://images.unsplash.com/photo-1564836235910-c3a17cf2727e?q=80&w=2070",
    "corporate" := "https://images.unsplash.com/photo-1511578314322-379afb476865?q=80&w=2070",
    "other" := "https://images.unsplash.com/photo-1492684223066-81342ee5ff30?q=80&w=2070"]

  function GetCoverImage(e: Event): (r: string)
    ensures Present(e.coverImage) ==> r == e.coverImage.value
    ensures !Present(e.coverImage) && e.kind in DefaultCovers ==> r == DefaultCovers[e.kind]
    ensures !Present(e.coverImage) && e.kind !in DefaultCovers ==> r == DefaultCovers["other"]
    ensures r != ""
  {
    if Present(e.coverImage) then e.coverImage.value
    else if e.kind in DefaultCovers && DefaultCovers[e.kind] != "" then DefaultCovers[e.kind]
    else DefaultCovers["other"]
  }

  predicate Keeps(postId: string, p: Post) { p.id != postId }

  /** Deleting a post keeps, in order, exactly the posts with another id. */
  lemma {:induction false} DeleteSpec(posts: seq<Post>, postId: string)
    ensures Sublist(Filter(posts, p => Keeps(postId, p)), posts)
    ensures forall p :: p in Filter(posts, p => Keeps(postId, p)) <==> p in posts && p.id != postId
  {
    FilterIsSublist(posts, p => Keeps(postId, p));
    FilterMembers(posts, p => Keeps(postId, p));
  }

  /** The loops of `handleFacesDetected`: for each group with a name, one tag
      per instance, in order. */
  method CollectTags(groups: seq<FaceRecognition.FaceGroup>) returns (newTags: seq<FaceTag>)
    ensures newTags == TagsOf(groups)
  {
    newTags := [];
    var i := 0;
    while i < |groups|
      invariant 0 <= i <= |groups|
      invariant newTags == TagsOf(groups[..i])
    {
      var g := groups[i];
      TagsOfStep(groups, i);
      if Truthy(g.personName) {
        newTags := PushInstanceTags(newTags, g);
      } else {
        assert newTags + GroupTags(g) == newTags;
      }
      i := i + 1;
    }
    assert groups[..i] == groups;
  }

  /** The inner loop: one tag per instance of a named group, pushed in order. */
  method PushInstanceTags(tags: seq<FaceTag>, g: FaceRecognition.FaceGroup) returns (r: seq<FaceTag>)
    requires Truthy(g.personName)
    ensures r == tags + GroupTags(g)
  {
    r := tags;
    var j := 0;
    while j < |g.instances|
      invariant 0 <= j <= |g.instances|
      invariant r == tags + GroupTags(g)[..j]
    {
      var x := g.instances[j];
      var t := FaceTag(x.postId, x.eventId, g.personName, g.faceId, x.box);
      GroupTagsStep(g, j);
      Associative(tags, GroupTags(g)[..j], [t]);
      r := r + [t];
      j := j + 1;
    }
    assert GroupTags(g)[..j] == GroupTags(g);
  }

  class EventPage {
    var posts: seq<Post>
    var faceTags: seq<FaceTag>

    constructor (eventPosts: seq<Post>, tags: seq<FaceTag>)
      ensures posts == eventPosts && faceTags == tags
    {
      posts, faceTags := eventPosts, tags;
    }

    /** `handleFacesDetected`: the named groups' tags are collected group by
        group and appended after the existing tags, which stay as they were. */
    method HandleFacesDetected(groups: seq<FaceRecognition.FaceGroup>)
      modifies this
      ensures faceTags == old(faceTags) + TagsOf(groups)
      ensures posts == old(posts)
    {
      var newTags := CollectTags(groups);
      faceTags := faceTags + newTags;
    }

    /** `deletePost`: declined, or a failed remote delete, changes nothing;
        otherwise only the posts with that id are removed. */
    method DeletePost(postId: string, confirmed: bool, deleted: bool)
      modifies this
      ensures confirmed && deleted ==> posts == Filter(old(posts), p => Keeps(postId, p))
      ensures !(confirmed && deleted) ==> posts == old(posts)
      ensures faceTags == old(faceTags)
    {
      if !confirmed { return; }
      if !deleted { return; }
      posts := Filter(posts, p => Keeps(postId, p));
    }

    function IdentifiedPeople(): nat
      reads this
    {
      PeopleCount(faceTags)
    }
  }
}
