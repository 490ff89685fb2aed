/** Face scanning over an event's photos, grouping the detected faces by the
    recogniser's `face_id`, and naming a group, which creates one face tag per
    occurrence. The recogniser itself is outside the model: its answer for
    each photo is a parameter. */
module FaceRecognition {
  import opened Common
  import opened Entities
  import Grouping

  /** A face as the recogniser reports it. */
  datatype Detected = Detected(faceId: string, box: BoundingBox)

  /** A detected face with the photo it came from. */
  datatype Face = Face(faceId: string, box: BoundingBox, postId: string, postUrl: string, eventId: string)

  /** One occurrence of a face in a group. The single-face shortcut keeps the
      whole face, `face_id` included; the grouping proper leaves it out. */
  datatype Instance = Instance(postId: string, postUrl: string, box: BoundingBox, eventId: string, faceId: Option<string>)

  datatype FaceGroup = FaceGroup(faceId: string, personName: string, instances: seq<Instance>)

  function FaceKey(f: Face): string { f.faceId }

  function AsInstance(f: Face): Instance {
    Instance(f.postId, f.postUrl, f.box, f.eventId, None)
  }

  function WholeFace(f: Face): Instance {
    Instance(f.postId, f.postUrl, f.box, f.eventId, Some(f.faceId))
  }

  function Instances(fs: seq<Face>): seq<Instance> {
    seq(|fs|, i requires 0 <= i < |fs| => AsInstance(fs[i]))
  }

  function GroupFor(faces: seq<Face>, k: string): FaceGroup {
    FaceGroup(k, "", Instances(Grouping.Bucket(faces, FaceKey, k)))
  }

  function GroupsFor(faces: seq<Face>, ks: seq<string>): seq<FaceGroup> {
    seq(|ks|, i requires 0 <= i < |ks| => GroupFor(faces, ks[i]))
  }

  /** The groups `groupSimilarFaces` returns: zero or one face map to one group
      per face; otherwise one group per `face_id`, in the key order of the
      object they were collected in. */
  function Grouped(faces: seq<Face>): seq<FaceGroup> {
    if |faces| <= 1 then seq(|faces|, i requires 0 <= i < |faces| => FaceGroup(faces[i].faceId, "", [WholeFace(faces[i])]))
    else GroupsFor(faces, Grouping.OwnKeysOrder(Grouping.FirstKeys(faces, FaceKey)))
  }

  /** `dict` and `created` hold what the first pass has collected from `items`:
      the keys in creation order, and for each key its faces' instances. */
  ghost predicate Collected(items: seq<Face>, dict: map<string, seq<Instance>>, created: seq<string>) {
    created == Grouping.FirstKeys(items, FaceKey)
    && (forall k :: k in dict <==> k in created)
    && (forall k :: k in dict ==> dict[k] == Instances(Grouping.Bucket(items, FaceKey, k)))
  }

  lemma {:induction false} InstancesSnoc(b: seq<Face>, f: Face)
    ensures Instances(b + [f]) == Instances(b) + [AsInstance(f)]
  {
  }

  /** One more face adds its instance to its own key's list only. */
  lemma {:induction false} InstancesStep(items: seq<Face>, f: Face, k: string)
    ensures Instances(Grouping.Bucket(items + [f], FaceKey, k))
      == Instances(Grouping.Bucket(items, FaceKey, k)) + (if k == f.faceId then [AsInstance(f)] else [])
  {
    var b := Grouping.Bucket(items, FaceKey, k);
    Grouping.BucketSnoc(items, f, FaceKey, k);
    if k == f.faceId {
      InstancesSnoc(b, f);
    } else {
      assert b + [] == b;
    }
  }

  lemma {:induction false} CollectStep(items: seq<Face>, f: Face, dict: map<string, seq<Instance>>, created: seq<string>)
    requires Collected(items, dict, created)
    ensures f.faceId in dict ==> Collected(items + [f], dict[f.faceId := dict[f.faceId] + [AsInstance(f)]], created)
    ensures f.faceId !in dict ==> Collected(items + [f], dict[f.faceId := [AsInstance(f)]], created + [f.faceId])
  {
    var items' := items + [f];
    var id := f.faceId;
    var dict' := if id in dict then dict[id := dict[id] + [AsInstance(f)]] else dict[id := [AsInstance(f)]];
    Grouping.FirstKeysSnoc(items, f, FaceKey);
    if id !in dict {
      Grouping.FirstKeysSpec(items, FaceKey);
      assert Grouping.Bucket(items, FaceKey, id) == [];
    }
    forall k | k in dict' ensures dict'[k] == Instances(Grouping.Bucket(items', FaceKey, k)) {
      InstancesStep(items, f, k);
    }
  }

  /** `groupSimilarFaces`: one pass fills a dictionary keyed by `face_id`,
      recording the order keys are created in, then the groups are read out
      in the object's key order. */
  method GroupSimilarFaces(faces: seq<Face>) returns (groups: seq<FaceGroup>)
    ensures groups == Grouped(faces)
  {
    if |faces| <= 1 {
      groups := seq(|faces|, i requires 0 <= i < |faces| => FaceGroup(faces[i].faceId, "", [WholeFace(faces[i])]));
      return;
    }
    var dict: map<string, seq<Instance>> := map[];
    var created: seq<string> := [];
    var i := 0;
    while i < |faces|
      invariant 0 <= i <= |faces|
      invariant Collected(faces[..i], dict, created)
    {
      var f := faces[i];
      CollectStep(faces[..i], f, dict, created);
      assert faces[..i + 1] == faces[..i] + [f];
      if f.faceId !in dict {
        Grouping.PushAfterCreate(dict, f.faceId, AsInstance(f));
        dict := dict[f.faceId := []];
        created := created + [f.faceId];
      }
      dict := dict[f.faceId := dict[f.faceId] + [AsInstance(f)]];
      i := i + 1;
    }
    assert faces[..i] == faces;
    CollectedKeys(faces, dict, created);
    groups := ReadOut(faces, dict, Grouping.OwnKeysOrder(created));
  }

  /** `Object.values` over the collected dictionary. */
  method ReadOut(faces: seq<Face>, dict: map<string, seq<Instance>>, keys: seq<string>) returns (groups: seq<FaceGroup>)
    requires forall k :: k in keys ==> k in dict && dict[k] == GroupFor(faces, k).instances
    ensures groups == GroupsFor(faces, keys)
  {
    groups := [];
    var j := 0;
    while j < |keys|
      invariant 0 <= j <= |keys|
      invariant groups == GroupsFor(faces, keys[..j])
    {
      GroupsForSnoc(faces, keys[..j], keys[j]);
      assert keys[..j + 1] == keys[..j] + [keys[j]];
      groups := groups + [FaceGroup(keys[j], "", dict[keys[j]])];
      j := j + 1;
    }
    assert keys[..j] == keys;
  }

  lemma {:induction false} GroupsForSnoc(faces: seq<Face>, ks: seq<string>, k: string)
    ensures GroupsFor(faces, ks + [k]) == GroupsFor(faces, ks) + [GroupFor(faces, k)]
  {
  }

  lemma {:induction false} CollectedKeys(faces: seq<Face>, dict: map<string, seq<Instance>>, created: seq<string>)
    requires Collected(faces, dict, created)
    ensures forall k :: k in Grouping.OwnKeysOrder(created) ==> k in dict && dict[k] == GroupFor(faces, k).instances
  {
    Grouping.OwnKeysOrderMembers(created);
  }

  /** Total number of instances over all groups. */
  function TotalInstances(groups: seq<FaceGroup>): nat {
    if groups == [] then 0 else |groups[0].instances| + TotalInstances(groups[1..])
  }

  lemma {:induction false} TotalIsSizeSum(faces: seq<Face>, ks: seq<string>)
    ensures TotalInstances(GroupsFor(faces, ks)) == Grouping.SizeSum(faces, FaceKey, ks)
    decreases |ks|
  {
    if ks != [] {
      assert GroupsFor(faces, ks)[1..] == GroupsFor(faces, ks[1..]);
      TotalIsSizeSum(faces, ks[1..]);
    }
  }

  /** Grouping neither loses nor duplicates a face: there are as many instances
      as input faces, and group ids are pairwise distinct. */
  lemma {:induction false} GroupedIsPartition(faces: seq<Face>)
    ensures TotalInstances(Grouped(faces)) == |faces|
    ensures forall i, j :: 0 <= i < j < |Grouped(faces)| ==> Grouped(faces)[i].faceId != Grouped(faces)[j].faceId
  {
    if |faces| <= 1 {
      if |faces| == 1 {
        assert Grouped(faces)[1..] == [];
      }
    } else {
      var ks := Grouping.OwnKeysOrder(Grouping.FirstKeys(faces, FaceKey));
      TotalIsSizeSum(faces, ks);
      Grouping.OrderedBucketsCoverItems(faces, FaceKey);
      Grouping.OrderedKeysSpec(faces, FaceKey);
    }
  }

  /** Each face sits in the group of its own id. */
  lemma {:induction false} GroupedHoldsEveryFace(faces: seq<Face>, f: Face)
    requires |faces| > 1 && f in faces
    ensures exists g :: g in Grouped(faces) && g.faceId == f.faceId && AsInstance(f) in g.instances
  {
    var ks := Grouping.OwnKeysOrder(Grouping.FirstKeys(faces, FaceKey));
    Grouping.OrderedKeysSpec(faces, FaceKey);
    var b := Grouping.Bucket(faces, FaceKey, f.faceId);
    Grouping.BucketMembers(faces, FaceKey, f.faceId);
    assert f in b;
    assert f.faceId in ks;
    var m :| 0 <= m < |ks| && ks[m] == f.faceId;
    var p :| 0 <= p < |b| && b[p] == f;
    var gs := Grouped(faces);
    assert gs == GroupsFor(faces, ks);
    var g := gs[m];
    assert g == GroupFor(faces, f.faceId);
    assert g.instances[p] == AsInstance(f);
  }

  /** A group is unnamed, and its instances are exactly the faces carrying its
      id, in input order; so each instance came from a face with the group's id. */
  lemma {:induction false} GroupedProvenance(faces: seq<Face>, m: nat)
    requires |faces| > 1 && m < |Grouped(faces)|
    ensures var g := Grouped(faces)[m];
      g.personName == ""
      && g.instances == Instances(Grouping.Bucket(faces, FaceKey, g.faceId))
      && Sublist(Grouping.Bucket(faces, FaceKey, g.faceId), faces)
      && forall x :: x in g.instances ==> exists f :: f in faces && f.faceId == g.faceId && x == AsInstance(f)
  {
    var g := Grouped(faces)[m];
    var b := Grouping.Bucket(faces, FaceKey, g.faceId);
    FilterIsSublist(faces, x => Grouping.HasKey(FaceKey, g.faceId, x));
    Grouping.BucketMembers(faces, FaceKey, g.faceId);
    forall x | x in g.instances ensures exists f :: f in faces && f.faceId == g.faceId && x == AsInstance(f) {
      var p :| 0 <= p < |g.instances| && g.instances[p] == x;
      assert b[p] in b;
    }
  }

  /** No faces give no groups; one face gives one unnamed group holding that face. */
  lemma {:induction false} GroupedSmall(faces: seq<Face>)
    ensures faces == [] ==> Grouped(faces) == []
    ensures |faces| == 1 ==> Grouped(faces) == [FaceGroup(faces[0].faceId, "", [WholeFace(faces[0])])]
  {
  }

  /** The recogniser's faces for one photo, each tagged with the photo's id and
      URL and the event id; a failed call contributes nothing. */
  function FacesOf(post: Post, result: Result<seq<Detected>>, eventId: string): seq<Face> {
    if result.Err? then []
    else seq(|result.value|, i requires 0 <= i < |result.value| =>
               Face(result.value[i].faceId, result.value[i].box, post.id, post.mediaUrl, eventId))
  }

  /** The faces accumulated over the photos, in photo order. */
  function Scanned(photos: seq<Post>, results: seq<Result<seq<Detected>>>, eventId: string): seq<Face>
    requires |results| == |photos|
  {
    if photos == [] then []
    else FacesOf(photos[0], results[0], eventId) + Scanned(photos[1..], results[1..], eventId)
  }

  lemma {:induction false} ScannedCons(x: Post, y: Result<seq<Detected>>, p: seq<Post>, r: seq<Result<seq<Detected>>>, eventId: string)
    requires |r| == |p|
    ensures Scanned([x] + p, [y] + r, eventId) == FacesOf(x, y, eventId) + Scanned(p, r, eventId)
  {
    assert ([x] + p)[0] == x && ([x] + p)[1..] == p;
    assert ([y] + r)[0] == y && ([y] + r)[1..] == r;
  }

  lemma {:induction false} ScannedAppend(p1: seq<Post>, r1: seq<Result<seq<Detected>>>,
                                         p2: seq<Post>, r2: seq<Result<seq<Detected>>>, eventId: string)
    requires |r1| == |p1| && |r2| == |p2|
    ensures Scanned(p1 + p2, r1 + r2, eventId) == Scanned(p1, r1, eventId) + Scanned(p2, r2, eventId)
    decreases |p1|
  {
    if p1 == [] {
      assert p1 + p2 == p2 && r1 + r2 == r2;
    } else {
      var x, t, y, u := p1[0], p1[1..], r1[0], r1[1..];
      assert p1 == [x] + t && p1 + p2 == [x] + (t + p2);
      assert r1 == [y] + u && r1 + r2 == [y] + (u + r2);
      ScannedCons(x, y, t + p2, u + r2, eventId);
      ScannedCons(x, y, t, u, eventId);
      ScannedAppend(t, u, p2, r2, eventId);
      Associative(FacesOf(x, y, eventId), Scanned(t, u, eventId), Scanned(p2, r2, eventId));
    }
  }

  /** One more photo adds its faces at the end. */
  lemma {:induction false} ScannedSnoc(p: seq<Post>, r: seq<Result<seq<Detected>>>, x: Post, y: Result<seq<Detected>>, eventId: string)
    requires |r| == |p|
    ensures Scanned(p + [x], r + [y], eventId) == Scanned(p, r, eventId) + FacesOf(x, y, eventId)
  {
    ScannedAppend(p, r, [x], [y], eventId);
    ScannedCons(x, y, [], [], eventId);
    assert [x] + [] == [x] && [y] + [] == [y];
    assert FacesOf(x, y, eventId) + [] == FacesOf(x, y, eventId);
  }

  /** A photo whose recognition failed is skipped and the photos after it are
      still scanned. */
  lemma {:induction false} FailedPhotoSkipped(photos: seq<Post>, results: seq<Result<seq<Detected>>>, eventId: string, i: nat)
    requires |results| == |photos| && i < |photos| && results[i].Err?
    ensures Scanned(photos, results, eventId)
            == Scanned(photos[..i], results[..i], eventId) + Scanned(photos[i + 1..], results[i + 1..], eventId)
  {
    SplitAt(photos, i);
    SplitAt(results, i);
    ScannedAround(photos[..i], results[..i], photos[i], results[i], photos[i + 1..], results[i + 1..], eventId);
  }

  lemma {:induction false} SplitAt<T>(s: seq<T>, i: nat)
    requires i < |s|
    ensures s[..i] + [s[i]] + s[i + 1..] == s
  {
  }

  lemma {:induction false} ScannedAround(a: seq<Post>, b: seq<Result<seq<Detected>>>, x: Post, y: Result<seq<Detected>>,
                      c: seq<Post>, d: seq<Result<seq<Detected>>>, eventId: string)
    requires |a| == |b| && |c| == |d| && y.Err?
    ensures Scanned(a + [x] + c, b + [y] + d, eventId) == Scanned(a, b, eventId) + Scanned(c, d, eventId)
  {
    assert FacesOf(x, y, eventId) == [];
    ScannedSnoc(a, b, x, y, eventId);
    assert Scanned(a + [x], b + [y], eventId) == Scanned(a, b, eventId);
    ScannedAppend(a + [x], b + [y], c, d, eventId);
  }

  /** Every scanned face came from a successfully recognised photo and carries
      that photo's id and URL and the event id. */
  lemma {:induction false} ScannedProvenance(photos: seq<Post>, results: seq<Result<seq<Detected>>>, eventId: string)
    requires |results| == |photos|
    ensures forall f :: f in Scanned(photos, results, eventId) ==>
      f.eventId == eventId &&
      exists i :: 0 <= i < |photos| && results[i].Ok? && f.postId == photos[i].id && f.postUrl == photos[i].mediaUrl
        && Detected(f.faceId, f.box) in results[i].value
    decreases |photos|
  {
    if photos != [] {
      var tail, rest := photos[1..], results[1..];
      ScannedProvenance(tail, rest, eventId);
      forall f | f in FacesOf(photos[0], results[0], eventId)
        ensures exists i :: (0 <= i < |photos| && results[i].Ok? && f.postId == photos[i].id
          && f.postUrl == photos[i].mediaUrl && Detected(f.faceId, f.box) in results[i].value)
      {
        var k :| 0 <= k < |results[0].value| && FacesOf(photos[0], results[0], eventId)[k] == f;
        assert results[0].value[k] == Detected(f.faceId, f.box);
      }
      forall f | f in Scanned(tail, rest, eventId)
        ensures exists i :: (0 <= i < |photos| && results[i].Ok? && f.postId == photos[i].id
          && f.postUrl == photos[i].mediaUrl && Detected(f.faceId, f.box) in results[i].value)
      {
        var i :| 0 <= i < |tail| && rest[i].Ok? && f.postId == tail[i].id && f.postUrl == tail[i].mediaUrl
          && Detected(f.faceId, f.box) in rest[i].value;
        assert tail[i] == photos[i + 1] && rest[i] == results[i + 1];
      }
    }
  }

  /** The tags one named group yields: one per instance, carrying the
      instance's post, event and position and the group's id. */
  function InstanceTags(faceId: string, name: string, instances: seq<Instance>): (r: seq<FaceTag>)
    ensures |r| == |instances|
    ensures forall i :: 0 <= i < |r| ==>
      r[i].postId == instances[i].postId && r[i].eventId == instances[i].eventId
      && r[i].box == instances[i].box && r[i].personName == name && r[i].faceId == faceId
  {
    seq(|instances|, i requires 0 <= i < |instances| =>
          FaceTag(instances[i].postId, instances[i].eventId, name, faceId, instances[i].box))
  }

  /** Naming: every group with the chosen id takes the name. */
  function Renamed(groups: seq<FaceGroup>, faceId: string, name: string): seq<FaceGroup> {
    seq(|groups|, i requires 0 <= i < |groups| =>
          if groups[i].faceId == faceId then groups[i].(personName := name) else groups[i])
  }

  /** With distinct ids, naming the group at `j` changes that group's name and
      nothing else: ids, instances and every other group stay as they were. */
  lemma {:induction false} RenameTouchesOneGroup(groups: seq<FaceGroup>, j: nat, name: string)
    requires j < |groups|
    requires forall a, b :: 0 <= a < b < |groups| ==> groups[a].faceId != groups[b].faceId
    ensures |Renamed(groups, groups[j].faceId, name)| == |groups|
    ensures Renamed(groups, groups[j].faceId, name)[j] == groups[j].(personName := name)
    ensures forall i :: 0 <= i < |groups| && i != j ==> Renamed(groups, groups[j].faceId, name)[i] == groups[i]
  {
  }

  /** The scan's accumulation loop: each photo's recognised faces, tagged with
      the photo, are appended in photo order; a failed photo adds nothing. */
  method CollectFaces(posts: seq<Post>, results: seq<Result<seq<Detected>>>, eventId: string)
    returns (detected: seq<Face>)
    requires |results| == |posts|
    ensures detected == Scanned(posts, results, eventId)
  {
    detected := [];
    var i := 0;
    while i < |posts|
      invariant 0 <= i <= |posts|
      invariant detected == Scanned(posts[..i], results[..i], eventId)
    {
      ScannedSnoc(posts[..i], results[..i], posts[i], results[i], eventId);
      assert posts[..i + 1] == posts[..i] + [posts[i]] && results[..i + 1] == results[..i] + [results[i]];
      if results[i].Ok? && |results[i].value| > 0 {
        detected := detected + FacesOf(posts[i], results[i], eventId);
      }
      i := i + 1;
    }
    assert posts[..i] == posts && results[..i] == results;
  }

  /** The face-scanning panel of one event. */
  class Scanner {
    const eventId: string
    var faces: seq<FaceGroup>
    var scanning: bool
    var complete: bool
    var alerts: nat
    /** The group lists passed to the page's `onFacesDetected`. */
    var notified: seq<seq<FaceGroup>>
    var selected: Option<FaceGroup>
    var personName: string
    var showNameDialog: bool
    /** Face tags created in the remote store. */
    var tags: seq<FaceTag>

    constructor (id: string)
      ensures eventId == id && faces == [] && !scanning && !complete && alerts == 0 && notified == []
      ensures selected == None && personName == "" && !showNameDialog && tags == []
    {
      eventId := id;
      faces, scanning, complete, alerts, notified := [], false, false, 0, [];
      selected, personName, showNameDialog, tags := None, "", false, [];
    }

    /** `scanForFaces`. `photos` is the event's photo query and `results[i]` the
        recogniser's answer for photo `i`. A failing query alerts; no photos
        alert and stop before grouping; otherwise the faces of every photo are
        accumulated in order, grouped, shown, and reported when there are any. */
    method ScanForFaces(photos: Result<seq<Post>>, results: seq<Result<seq<Detected>>>)
      requires photos.Ok? ==> |results| == |photos.value|
      modifies this
      ensures !scanning && selected == old(selected) && tags == old(tags)
      ensures photos.Err? || photos.value == [] ==>
        faces == old(faces) && notified == old(notified) && alerts == old(alerts) + 1 && !complete
      ensures photos.Ok? && photos.value != [] ==>
        faces == Grouped(Scanned(photos.value, results, eventId)) && complete && alerts == old(alerts)
        && notified == old(notified) + (if faces == [] then [] else [faces])
    {
      scanning, complete := true, false;
      if photos.Err? || |photos.value| == 0 {
        alerts := alerts + 1;
      } else {
        var detected := CollectFaces(photos.value, results, eventId);
        var groups := GroupSimilarFaces(detected);
        faces := groups;
        if |groups| > 0 {
          notified := notified + [groups];
        }
        complete := true;
      }
      scanning := false;
    }

    method HandleNameFace(g: FaceGroup)
      modifies this
      ensures selected == Some(g) && personName == "" && showNameDialog
      ensures faces == old(faces) && tags == old(tags) && notified == old(notified)
    {
      selected, personName, showNameDialog := Some(g), "", true;
    }

    method SetPersonName(name: string)
      modifies this
      ensures personName == name && faces == old(faces) && selected == old(selected) && tags == old(tags)
    {
      personName := name;
    }

    /** `saveFaceName`. A blank name or no selection does nothing. Otherwise the
        groups with the selected id are renamed in place, then one tag per
        instance of the selected group is created; `failAt` is the create that
        throws, if any, after which the page is not notified and the dialog
        stays open. */
    method SaveFaceName(failAt: Option<nat>)
      modifies this
      ensures IsBlank(old(personName)) || old(selected).None? ==>
        faces == old(faces) && tags == old(tags) && notified == old(notified) && showNameDialog == old(showNameDialog)
      ensures !IsBlank(old(personName)) && old(selected).Some? ==>
        var g := old(selected).value;
        var all := InstanceTags(g.faceId, old(personName), g.instances);
        faces == Renamed(old(faces), g.faceId, old(personName))
        && (if failAt.Some? && failAt.value < |g.instances|
            then tags == old(tags) + all[..failAt.value] && notified == old(notified)
                 && showNameDialog == old(showNameDialog)
            else tags == old(tags) + all && notified == old(notified) + [faces] && !showNameDialog)
      ensures selected == old(selected) && personName == old(personName)
    {
      if IsBlank(personName) || selected.None? { return; }
      var g := selected.value;
      var all := InstanceTags(g.faceId, personName, g.instances);
      faces := Renamed(faces, g.faceId, personName);
      var i := 0;
      while i < |g.instances|
        invariant 0 <= i <= |g.instances|
        invariant failAt.Some? && failAt.value < |g.instances| ==> i <= failAt.value
        invariant tags == old(tags) + all[..i]
        invariant faces == Renamed(old(faces), g.faceId, personName)
        invariant notified == old(notified) && showNameDialog == old(showNameDialog)
        invariant selected == old(selected) && personName == old(personName)
      {
        if failAt == Some(i) {
          return;
        }
        var inst := g.instances[i];
        tags := tags + [FaceTag(inst.postId, inst.eventId, personName, g.faceId, inst.box)];
        assert all[..i + 1] == all[..i] + [all[i]];
        i := i + 1;
      }
      notified := notified + [faces];
      showNameDialog := false;
    }
  }
}
