/** The story bubbles above the feed: posts grouped by moment type, each
    bubble showing its first post and the type's label. */
module MomentStories {
  import opened Common
  import opened Entities
  import Grouping

  /** Labels for the known moment types. */
  const MomentTypes: map<string, string> := map[
    "ceremony" := "טקס",
    "dance" := "ריקודים",
    "food" := "אוכל",
    "family" := "משפחה",
    "friends" := "חברים",
    "general" := "רגעים"]

  /** A post's group: its moment type, or "general" when that is empty. */
  function StoryKey(p: Post): (k: string)
    ensures k != ""
    ensures Truthy(p.momentType) ==> k == p.momentType
  {
    if Truthy(p.momentType) then p.momentType else "general"
  }

  datatype Story = Story(key: string, posts: seq<Post>)

  function StoriesFor(posts: seq<Post>, ks: seq<string>): seq<Story>
  {
    seq(|ks|, i requires 0 <= i < |ks| => Story(ks[i], Grouping.Bucket(posts, StoryKey, ks[i])))
  }

  /** `Object.entries` of the grouped posts. */
  function Stories(posts: seq<Post>): seq<Story>
  {
    StoriesFor(posts, Grouping.OwnKeysOrder(Grouping.FirstKeys(posts, StoryKey)))
  }

  /** The `reduce` that fills the dictionary, then its entries in key order. */
  method GroupPosts(posts: seq<Post>) returns (stories: seq<Story>)
    ensures stories == Stories(posts)
  {
    var acc, created := Collect(posts);
    Grouping.CollectedKeys(posts, StoryKey, acc, created);
    stories := Entries(posts, acc, Grouping.OwnKeysOrder(created));
  }

  /** The `reduce`: each post pushed into the array under its key, the array
      created on the key's first appearance. */
  method Collect(posts: seq<Post>) returns (acc: map<string, seq<Post>>, created: seq<string>)
    ensures Grouping.Collected(posts, StoryKey, acc, created)
  {
    acc := map[];
    created := [];
    var i := 0;
    while i < |posts|
      invariant 0 <= i <= |posts|
      invariant Grouping.Collected(posts[..i], StoryKey, acc, created)
    {
      var post := posts[i];
      var kind := StoryKey(post);
      Grouping.CollectStep(posts[..i], post, StoryKey, acc, created);
      assert posts[..i + 1] == posts[..i] + [post];
      if kind !in acc {
        Grouping.PushAfterCreate(acc, kind, post);
        acc := acc[kind := []];
        created := created + [kind];
      }
      acc := acc[kind := acc[kind] + [post]];
      i := i + 1;
    }
    assert posts[..i] == posts;
  }

  /** `Object.entries` over the filled dictionary. */
  method Entries(posts: seq<Post>, acc: map<string, seq<Post>>, keys: seq<string>) returns (stories: seq<Story>)
    requires forall k :: k in keys ==> k in acc && acc[k] == Grouping.Bucket(posts, StoryKey, k)
    ensures stories == StoriesFor(posts, keys)
  {
    stories := [];
    var j := 0;
    while j < |keys|
      invariant 0 <= j <= |keys|
      invariant stories == StoriesFor(posts, keys[..j])
    {
      assert StoriesFor(posts, keys[..j + 1]) == StoriesFor(posts, keys[..j]) + [Story(keys[j], acc[keys[j]])];
      stories := stories + [Story(keys[j], acc[keys[j]])];
      j := j + 1;
    }
    assert keys[..j] == keys;
  }

  function TotalPosts(stories: seq<Story>): nat {
    if stories == [] then 0 else |stories[0].posts| + TotalPosts(stories[1..])
  }

  lemma {:induction false} TotalIsSizeSum(posts: seq<Post>, ks: seq<string>)
    ensures TotalPosts(StoriesFor(posts, ks)) == Grouping.SizeSum(posts, StoryKey, ks)
    decreases |ks|
  {
    if ks != [] {
      assert StoriesFor(posts, ks)[1..] == StoriesFor(posts, ks[1..]);
      TotalIsSizeSum(posts, ks[1..]);
    }
  }

  /** The stories partition the posts: group sizes add up to the number of
      posts, keys are distinct, and no group is empty. */
  lemma {:induction false} StoriesPartition(posts: seq<Post>)
    ensures TotalPosts(Stories(posts)) == |posts|
    ensures forall i, j :: 0 <= i < j < |Stories(posts)| ==> Stories(posts)[i].key != Stories(posts)[j].key
    ensures forall s :: s in Stories(posts) ==> s.posts != []
  {
    var ks := Grouping.OwnKeysOrder(Grouping.FirstKeys(posts, StoryKey));
    TotalIsSizeSum(posts, ks);
    Grouping.OrderedBucketsCoverItems(posts, StoryKey);
    Grouping.OrderedKeysSpec(posts, StoryKey);
  }

  /** Each post is in the group of its key; each group holds only posts with
      its key, in input order. */
  lemma {:induction false} StoriesMembership(posts: seq<Post>)
    ensures forall p :: p in posts ==> exists s :: s in Stories(posts) && s.key == StoryKey(p) && p in s.posts
    ensures forall s :: s in Stories(posts) ==>
      Sublist(s.posts, posts) && forall p :: p in s.posts ==> StoryKey(p) == s.key
  {
    var ks := Grouping.OwnKeysOrder(Grouping.FirstKeys(posts, StoryKey));
    Grouping.OrderedKeysSpec(posts, StoryKey);
    forall p | p in posts ensures exists s :: s in Stories(posts) && s.key == StoryKey(p) && p in s.posts {
      var n :| 0 <= n < |posts| && posts[n] == p;
      Grouping.BucketMembers(posts, StoryKey, StoryKey(p));
      assert p in Grouping.Bucket(posts, StoryKey, StoryKey(p));
      var m :| 0 <= m < |ks| && ks[m] == StoryKey(p);
      assert Stories(posts)[m].key == StoryKey(p);
    }
    forall s | s in Stories(posts) ensures Sublist(s.posts, posts) && forall p :: p in s.posts ==> StoryKey(p) == s.key {
      FilterIsSublist(posts, x => Grouping.HasKey(StoryKey, s.key, x));
      Grouping.BucketMembers(posts, StoryKey, s.key);
    }
  }

  /** The bubble image: the group's first post's media. */
  function Thumbnail(s: Story): (r: Option<string>)
    ensures s.posts != [] ==> r == Some(s.posts[0].mediaUrl)
    ensures s.posts == [] ==> r == None
  {
    if s.posts == [] then None else Some(s.posts[0].mediaUrl)
  }

  /** The bubble of a post's group shows that post's media when no earlier
      post falls in the same group. */
  lemma {:induction false} ThumbnailIsFirstOfGroup(posts: seq<Post>, n: nat)
    requires n < |posts|
    requires forall m :: 0 <= m < n ==> StoryKey(posts[m]) != StoryKey(posts[n])
    ensures exists s :: s in Stories(posts) && s.key == StoryKey(posts[n]) && Thumbnail(s) == Some(posts[n].mediaUrl)
  {
    var k := StoryKey(posts[n]);
    var ks := Grouping.OwnKeysOrder(Grouping.FirstKeys(posts, StoryKey));
    FilterFirst(posts, x => Grouping.HasKey(StoryKey, k, x), n);
    assert Grouping.Bucket(posts, StoryKey, k) == Filter(posts, x => Grouping.HasKey(StoryKey, k, x));
    Grouping.OrderedKeysSpec(posts, StoryKey);
    assert k in ks;
    var i :| 0 <= i < |ks| && ks[i] == k;
    assert Stories(posts)[i] == Story(k, Grouping.Bucket(posts, StoryKey, k));
  }

  /** The bubble caption: the label of a known moment type; other keys have none. */
  function Label(key: string): (r: Option<string>)
    ensures r.Some? <==> key in MomentTypes
    ensures r.Some? ==> r.value == MomentTypes[key]
  {
    if key in MomentTypes then Some(MomentTypes[key]) else None
  }

  /** Posts without a moment type end up under the "general" bubble, which has a label. */
  lemma {:induction false} UntypedPostsAreGeneral(posts: seq<Post>, p: Post)
    requires p in posts && p.momentType == ""
    ensures exists s :: s in Stories(posts) && s.key == "general" && p in s.posts && Label(s.key).Some?
  {
    StoriesMembership(posts);
  }
}
