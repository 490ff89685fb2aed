/** The guest-facing event feed: the name-entry redirect, loading an event and
    its posts, the moment-type filter chips, creating a post with the stored
    guest identity, and the in-memory like/save/comment state. */
module EventFeed {
  import opened Common
  import opened Entities
  import GuestStorage
  import Grouping

  /** The label given to a post whose author is unknown ("guest"). */
  const DefaultGuestName: string := "אורח"

  const AllFilter: string := "all"

  /** The name-entry check run when the feed opens: with a code in the URL but
      either half of the stored identity missing, the guest is sent to the
      name-entry page for that code. */
  function NameEntryRedirect(code: Option<string>, items: map<string, string>): (r: Option<Redirect>)
    ensures r.Some? <==> Present(code) && !GuestStorage.HasIdentity(items, code.value)
    ensures r.Some? ==> r.value == Redirect("GuestEntry", code)
  {
    if !Present(code) then None
    else if !GuestStorage.HasIdentity(items, code.value) then Some(Redirect("GuestEntry", code))
    else None
  }

  function MomentOf(p: Post): string { p.momentType }
  predicate HasMoment(p: Post) { Truthy(p.momentType) }

  /** The distinct truthy moment types, in order of first occurrence. */
  function MomentTags(posts: seq<Post>): seq<string>
  {
    Grouping.FirstKeys(Filter(posts, HasMoment), MomentOf)
  }

  /** The chip row: "all" followed by the distinct moment types. */
  function FilterChips(posts: seq<Post>): seq<string>
  {
    [AllFilter] + MomentTags(posts)
  }

  /** After "all", the chips are distinct and are exactly the non-empty moment
      types carried by some post, in order of first occurrence: a chip's first
      post comes before every post of a later chip. The whole row is free of
      duplicates exactly when no post uses "all" as its moment type. */
  lemma {:induction false} FilterChipsSpec(posts: seq<Post>)
    ensures FilterChips(posts)[0] == AllFilter
    ensures Grouping.Distinct(FilterChips(posts)[1..])
    ensures forall t :: t in FilterChips(posts)[1..] <==> t != "" && exists p :: p in posts && p.momentType == t
    ensures forall i, j :: 1 <= i < j < |FilterChips(posts)| ==>
      Grouping.Precedes(posts, MomentOf, FilterChips(posts)[i], FilterChips(posts)[j])
    ensures Grouping.Distinct(FilterChips(posts)) <==> forall p :: p in posts ==> p.momentType != AllFilter
  {
    var tags := MomentTags(posts);
    Grouping.FirstKeysSpec(Filter(posts, HasMoment), MomentOf);
    MomentTagsMembers(posts);
    var chips := FilterChips(posts);
    assert chips[1..] == tags;
    forall i, j | 1 <= i < j < |chips| ensures Grouping.Precedes(posts, MomentOf, chips[i], chips[j]) {
      assert chips[i] == tags[i - 1] && chips[j] == tags[j - 1];
      MomentTagsOrder(posts, i - 1, j - 1);
    }
    if exists p :: p in posts && p.momentType == AllFilter {
      assert AllFilter in tags;
      var k :| 0 <= k < |tags| && tags[k] == AllFilter;
      assert chips[k + 1] == chips[0];
    } else {
      forall i, j | 0 <= i < j < |chips| ensures chips[i] != chips[j] {
        assert chips[j] == tags[j - 1];
        if i > 0 {
          assert chips[i] == tags[i - 1];
        } else {
          assert chips[j] in tags;
        }
      }
    }
  }

  lemma {:induction false} MomentTagsMembers(posts: seq<Post>)
    ensures forall t :: t in MomentTags(posts) <==> t != "" && exists p :: p in posts && p.momentType == t
  {
    var named := Filter(posts, HasMoment);
    var tags := MomentTags(posts);
    Grouping.FirstKeysSpec(named, MomentOf);
    FilterMembers(posts, HasMoment);
    forall t ensures t in tags <==> t != "" && exists p :: p in posts && p.momentType == t {
      if t in tags {
        var b := Grouping.Bucket(named, MomentOf, t);
        Grouping.BucketMembers(named, MomentOf, t);
        assert b[0] in named;
      }
      if t != "" && exists p :: p in posts && p.momentType == t {
        var p :| p in posts && p.momentType == t;
        var i :| 0 <= i < |posts| && posts[i] == p;
        assert p in named;
        Grouping.BucketMembers(named, MomentOf, t);
        assert p in Grouping.Bucket(named, MomentOf, t);
      }
    }
  }

  /** Two moment types are in the order their first posts appear in. */
  lemma {:induction false} MomentTagsOrder(posts: seq<Post>, i: nat, j: nat)
    requires i < j < |MomentTags(posts)|
    ensures Grouping.Precedes(posts, MomentOf, MomentTags(posts)[i], MomentTags(posts)[j])
  {
    var tags := MomentTags(posts);
    Grouping.FirstKeysBefore(Filter(posts, HasMoment), MomentOf, i, j);
    MomentTagsMembers(posts);
    assert tags[j] in tags;
    forall x | x in posts && MomentOf(x) == tags[j] ensures HasMoment(x) {
    }
    Grouping.PrecedesFilter(posts, HasMoment, MomentOf, tags[i], tags[j]);
  }

  predicate MatchesFilter(filter: string, p: Post) { p.momentType == filter }

  /** `getFilteredPosts`. */
  function FilteredPosts(posts: seq<Post>, filter: string): seq<Post>
  {
    if filter == AllFilter then posts else Filter(posts, p => MatchesFilter(filter, p))
  }

  /** "all" shows the list unchanged; any other chip shows exactly the posts with
      that moment type, as an order-preserving sublist. */
  lemma {:induction false} FilteredPostsSpec(posts: seq<Post>, filter: string)
    ensures Sublist(FilteredPosts(posts, filter), posts)
    ensures filter == AllFilter ==> FilteredPosts(posts, filter) == posts
    ensures filter != AllFilter ==>
      forall p :: p in FilteredPosts(posts, filter) <==> p in posts && p.momentType == filter
  {
    if filter == AllFilter {
      SublistRefl(posts);
    } else {
      FilterIsSublist(posts, p => MatchesFilter(filter, p));
      FilterMembers(posts, p => MatchesFilter(filter, p));
    }
  }

  lemma {:induction false} SublistRefl<T>(s: seq<T>)
    ensures Sublist(s, s)
    decreases |s|
  {
    if s != [] { SublistRefl(s[1..]); }
  }

  /** The post fields a capture screen hands to the feed. */
  datatype PostData = PostData(
    kind: string,
    mediaUrl: string,
    caption: string,
    momentType: string,
    guestName: Option<string>,
    guestId: Option<string>)

  /** The record sent to the store: the capture's own fields, then the loaded
      event's id and the stored identity, each falling back as `||` does. */
  function NewPostRecord(data: PostData, eventId: string, storedName: Option<string>,
                         storedId: Option<string>, newId: string): Post
  {
    Post(newId, eventId, data.kind, data.mediaUrl, data.caption,
         if Present(storedName) then storedName.value
         else if Present(data.guestName) then data.guestName.value
         else DefaultGuestName,
         if Present(storedId) then storedId
         else if Present(data.guestId) then data.guestId
         else None,
         data.momentType)
  }

  /** A stored name wins over a name passed inline, whatever is stored as the
      id, and the event id is the loaded event's whatever the capture says. */
  lemma {:induction false} StoredNameWins(data: PostData, eventId: string, name: string, storedId: Option<string>, newId: string)
    requires name != ""
    ensures NewPostRecord(data, eventId, Some(name), storedId, newId).guestName == name
    ensures NewPostRecord(data, eventId, Some(name), storedId, newId).eventId == eventId
  {
  }

  /** A stored id wins over an id passed inline, whatever is stored as the
      name. */
  lemma {:induction false} StoredIdWins(data: PostData, eventId: string, storedName: Option<string>, id: string, newId: string)
    requires id != ""
    ensures NewPostRecord(data, eventId, storedName, Some(id), newId).guestId == Some(id)
  {
  }

  /** Without a stored name, the inline name is the one used, and only an
      absent or empty inline name yields the default label; without a stored
      id, the inline id is the one used, and none is invented. */
  lemma {:induction false} InlineIdentityFallback(data: PostData, eventId: string, storedName: Option<string>,
                                                  storedId: Option<string>, newId: string)
    ensures var p := NewPostRecord(data, eventId, storedName, storedId, newId);
      !Present(storedName) ==>
        (Present(data.guestName) ==> p.guestName == data.guestName.value)
        && (p.guestName == DefaultGuestName <==> !Present(data.guestName) || data.guestName.value == DefaultGuestName)
    ensures var p := NewPostRecord(data, eventId, storedName, storedId, newId);
      !Present(storedId) ==>
        (Present(data.guestId) ==> p.guestId == data.guestId)
        && (p.guestId.Some? <==> Present(data.guestId))
  {
  }

  datatype Comment = Comment(id: string, text: string, username: string, timestamp: string)

  /** `!prev[postId]`: an absent flag reads as false. */
  function Flag(m: map<string, bool>, id: string): bool {
    id in m && m[id]
  }

  function Toggled(m: map<string, bool>, id: string): map<string, bool> {
    m[id := !Flag(m, id)]
  }

  /** A toggle flips only the given post's flag; a second toggle restores every
      flag, and restores the map itself when the post already had an entry. */
  lemma {:induction false} ToggleSpec(m: map<string, bool>, id: string)
    ensures Flag(Toggled(m, id), id) == !Flag(m, id)
    ensures forall k :: k != id ==> Flag(Toggled(m, id), k) == Flag(m, k)
    ensures forall k :: Flag(Toggled(Toggled(m, id), id), k) == Flag(m, k)
    ensures id in m ==> Toggled(Toggled(m, id), id) == m
  {
  }

  function CommentsOf(m: map<string, seq<Comment>>, id: string): seq<Comment> {
    if id in m then m[id] else []
  }

  /** The caption shown on a collapsed card. */
  function CaptionPreview(caption: string): (r: string)
    ensures |caption| <= 80 ==> r == caption
    ensures |caption| > 80 ==> |r| == 83 && r[..80] == caption[..80] && r[80..] == "..."
  {
    if |caption| > 80 then caption[..80] + "..." else caption
  }

  /** The feed screen's state. `posts` is newest first. */
  class Feed {
    var event: Option<Event>
    var posts: seq<Post>
    var filterTags: seq<string>
    var activeFilter: string
    var likedPosts: map<string, bool>
    var savedPosts: map<string, bool>
    var comments: map<string, seq<Comment>>
    var commentText: string
    var redirect: Option<Redirect>
    var alerts: nat

    constructor ()
      ensures event == None && posts == [] && filterTags == [] && activeFilter == AllFilter
      ensures likedPosts == map[] && savedPosts == map[] && comments == map[]
      ensures commentText == "" && redirect == None && alerts == 0
    {
      event, posts, filterTags, activeFilter := None, [], [], AllFilter;
      likedPosts, savedPosts, comments := map[], map[], map[];
      commentText, redirect, alerts := "", None, 0;
    }

    /** The events whose code matches, and then the posts of the first of them
        (newest first), as the store returns them. Without a code, an unknown
        code, or a failing lookup, the guest goes Home. */
    method LoadEvent(code: Option<string>, found: Result<seq<Event>>, eventPosts: Result<seq<Post>>)
      modifies this
      ensures !Present(code) ==> redirect == Some(Redirect("Home", None)) && event == old(event) && posts == old(posts)
      ensures Present(code) && (found.Err? || found.value == []) ==>
        redirect == Some(Redirect("Home", None)) && event == old(event) && posts == old(posts)
      ensures Present(code) && found.Ok? && found.value != [] ==> event == Some(found.value[0])
      ensures Present(code) && found.Ok? && found.value != [] && eventPosts.Ok? ==>
        posts == eventPosts.value && filterTags == FilterChips(eventPosts.value) && redirect == old(redirect)
      ensures Present(code) && found.Ok? && found.value != [] && eventPosts.Err? ==>
        redirect == Some(Redirect("Home", None)) && posts == old(posts)
      ensures likedPosts == old(likedPosts) && savedPosts == old(savedPosts) && comments == old(comments)
    {
      if !Present(code) {
        redirect := Some(Redirect("Home", None));
        return;
      }
      if found.Err? || found.value == [] {
        redirect := Some(Redirect("Home", None));
        return;
      }
      event := Some(found.value[0]);
      if eventPosts.Err? {
        redirect := Some(Redirect("Home", None));
        return;
      }
      posts := eventPosts.value;
      filterTags := FilterChips(eventPosts.value);
    }

    /** Creating a post: with no event loaded nothing happens; otherwise the
        record merged with the stored identity is sent, and on success the
        created post (the record with the id the store assigned) goes to the
        front while every earlier post keeps its place. */
    method HandleNewPost(data: PostData, store: GuestStorage.Store, created: Result<string>)
      modifies this
      ensures event == old(event) && likedPosts == old(likedPosts) && savedPosts == old(savedPosts)
      ensures comments == old(comments)
      ensures old(event).None? ==> posts == old(posts) && alerts == old(alerts)
      ensures old(event).Some? && created.Ok? ==>
        posts == [NewPostRecord(data, old(event).value.id,
                                store.GetItem(GuestStorage.NameKey(old(event).value.code)),
                                store.GetItem(GuestStorage.IdKey(old(event).value.code)),
                                created.value)] + old(posts)
        && alerts == old(alerts)
      ensures old(event).Some? && created.Err? ==> posts == old(posts) && alerts == old(alerts) + 1
    {
      if event.None? { return; }
      var ev := event.value;
      var storedName := store.GetItem(GuestStorage.NameKey(ev.code));
      var storedId := store.GetItem(GuestStorage.IdKey(ev.code));
      if created.Err? {
        alerts := alerts + 1;
        return;
      }
      var newPost := NewPostRecord(data, ev.id, storedName, storedId, created.value);
      posts := [newPost] + posts;
    }

    method ToggleLike(postId: string)
      modifies this
      ensures likedPosts == Toggled(old(likedPosts), postId)
      ensures savedPosts == old(savedPosts) && posts == old(posts) && comments == old(comments)
    {
      likedPosts := likedPosts[postId := !Flag(likedPosts, postId)];
    }

    method ToggleSave(postId: string)
      modifies this
      ensures savedPosts == Toggled(old(savedPosts), postId)
      ensures likedPosts == old(likedPosts) && posts == old(posts) && comments == old(comments)
    {
      savedPosts := savedPosts[postId := !Flag(savedPosts, postId)];
    }

    method SetCommentText(text: string)
      modifies this
      ensures commentText == text
      ensures comments == old(comments) && posts == old(posts)
    {
      commentText := text;
    }

    /** A blank comment is ignored; otherwise exactly one comment carrying the
        typed text is appended to that post's thread and the input is cleared. */
    method HandleCommentSubmit(postId: string, commentId: string, timestamp: string)
      modifies this
      ensures IsBlank(old(commentText)) ==> comments == old(comments) && commentText == old(commentText)
      ensures !IsBlank(old(commentText)) ==>
        comments == old(comments)[postId := CommentsOf(old(comments), postId)
                                   + [Comment(commentId, old(commentText), DefaultGuestName, timestamp)]]
        && commentText == ""
      ensures posts == old(posts) && likedPosts == old(likedPosts) && savedPosts == old(savedPosts)
    {
      if IsBlank(commentText) { return; }
      var c := Comment(commentId, commentText, DefaultGuestName, timestamp);
      comments := comments[postId := CommentsOf(comments, postId) + [c]];
      commentText := "";
    }

    function VisiblePosts(): seq<Post>
      reads this
    {
      FilteredPosts(posts, activeFilter)
    }
  }

  /** Submitting a comment leaves every other post's thread untouched and grows
      the target thread by exactly one. */
  lemma {:induction false} CommentOnlyTouchesTarget(m: map<string, seq<Comment>>, postId: string, c: Comment)
    ensures var m' := m[postId := CommentsOf(m, postId) + [c]];
      |CommentsOf(m', postId)| == |CommentsOf(m, postId)| + 1
      && CommentsOf(m', postId)[..|CommentsOf(m, postId)|] == CommentsOf(m, postId)
      && forall k :: k != postId ==> CommentsOf(m', k) == CommentsOf(m, k)
  {
  }
}
