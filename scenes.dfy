/** The storyboard's scene records and the pure list updaters that the
    application hands to its state setter: start-render, render success and
    render failure, each a map over the list that touches only the scenes
    whose id matches. */
module Scenes {

  datatype Option<T> = None | Some(value: T)

  /** One storyboard panel. The three text fields are fixed at creation;
      imageUrl, isLoading and error carry the render status. */
  datatype Scene = Scene(
    id: int,
    narrativeSegment: string,
    visualPrompt: string,
    characters: string,
    imageUrl: Option<string>,
    isLoading: bool,
    error: Option<string>)

  /** One entry of the story analyzer's reply. */
  datatype SceneItem = SceneItem(narrativeSegment: string, visualPrompt: string, characters: string)

  /** The error note attached to a scene whose render failed. */
  const RenderErrorMessage: string := "Failed to generate image"

  /** The three changes a render makes to its own scene. */
  datatype Update = StartRender | RenderSucceeded(url: string) | RenderFailed

  /** A render step addressed to one scene by id. */
  datatype Completion = Completion(sceneId: int, update: Update)

  /** a and b are the same scene: same id and the same immutable text. */
  predicate SameText(a: Scene, b: Scene) {
    a.id == b.id && a.narrativeSegment == b.narrativeSegment
    && a.visualPrompt == b.visualPrompt && a.characters == b.characters
  }

  /** The ids are exactly 1..N, in list order. */
  predicate DenseIds(scenes: seq<Scene>) {
    forall i :: 0 <= i < |scenes| ==> scenes[i].id == i + 1
  }

  /** Some scene in the list carries this id. */
  predicate HasId(scenes: seq<Scene>, id: int) {
    exists i :: 0 <= i < |scenes| && scenes[i].id == id
  }

  // ---------------------------------------------------------------------
  // Updating one scene

  /** What one update does to the scene it targets. */
  function Patch(s: Scene, u: Update): (r: Scene)
    ensures SameText(r, s)
    ensures u.StartRender? ==> r.isLoading && r.error == None && r.imageUrl == s.imageUrl
    ensures u.RenderSucceeded? ==> !r.isLoading && r.imageUrl == Some(u.url) && r.error == s.error
    ensures u.RenderFailed? ==> !r.isLoading && r.error == Some(RenderErrorMessage) && r.imageUrl == s.imageUrl
  {
    match u
    case StartRender => s.(isLoading := true, error := None)
    case RenderSucceeded(url) => s.(imageUrl := Some(url), isLoading := false)
    case RenderFailed => s.(isLoading := false, error := Some(RenderErrorMessage))
  }

  /** The shared shape of the three updaters: map over the list, patch every
      scene whose id matches, keep the others as they are. */
  function UpdateById(scenes: seq<Scene>, id: int, u: Update): (r: seq<Scene>)
    ensures |r| == |scenes|
    ensures forall i :: 0 <= i < |scenes| && scenes[i].id == id ==> r[i] == Patch(scenes[i], u)
    ensures forall i :: 0 <= i < |scenes| && scenes[i].id != id ==> r[i] == scenes[i]
  {
    if scenes == [] then []
    else [if scenes[0].id == id then Patch(scenes[0], u) else scenes[0]] + UpdateById(scenes[1..], id, u)
  }

  /** Start-render for a scene: loading again, error cleared, image kept. */
  function StartLoading(scenes: seq<Scene>, id: int): (r: seq<Scene>)
    ensures |r| == |scenes|
    ensures forall i :: 0 <= i < |scenes| ==> SameText(r[i], scenes[i]) && r[i].imageUrl == scenes[i].imageUrl
    ensures forall i :: 0 <= i < |scenes| && scenes[i].id == id ==> r[i].isLoading && r[i].error == None
    ensures forall i :: 0 <= i < |scenes| && scenes[i].id != id ==> r[i] == scenes[i]
  {
    UpdateById(scenes, id, StartRender)
  }

  /** Render success: the image is set and loading stops; the error note is
      left as it was (the spread keeps it). */
  function ApplySuccess(scenes: seq<Scene>, id: int, url: string): (r: seq<Scene>)
    ensures |r| == |scenes|
    ensures forall i :: 0 <= i < |scenes| ==> SameText(r[i], scenes[i]) && r[i].error == scenes[i].error
    ensures forall i :: 0 <= i < |scenes| && scenes[i].id == id ==> r[i].imageUrl == Some(url) && !r[i].isLoading
    ensures forall i :: 0 <= i < |scenes| && scenes[i].id != id ==> r[i] == scenes[i]
  {
    UpdateById(scenes, id, RenderSucceeded(url))
  }

  /** Render failure: loading stops and the fixed error note is attached;
      an image from an earlier render is not removed. */
  function ApplyFailure(scenes: seq<Scene>, id: int): (r: seq<Scene>)
    ensures |r| == |scenes|
    ensures forall i :: 0 <= i < |scenes| ==> SameText(r[i], scenes[i]) && r[i].imageUrl == scenes[i].imageUrl
    ensures forall i :: 0 <= i < |scenes| && scenes[i].id == id ==> r[i].error == Some(RenderErrorMessage) && !r[i].isLoading
    ensures forall i :: 0 <= i < |scenes| && scenes[i].id != id ==> r[i] == scenes[i]
  {
    UpdateById(scenes, id, RenderFailed)
  }

  // ---------------------------------------------------------------------
  // Building and looking up

  /** A freshly built scene: the item's text, the given id, loading, no
      image and no error. */
  function NewScene(id: int, item: SceneItem): Scene {
    Scene(id, item.narrativeSegment, item.visualPrompt, item.characters, None, true, None)
  }

  /** The scene list made from the analyzer's items, ids counting from 1. */
  function BuildScenes(items: seq<SceneItem>): (r: seq<Scene>)
    ensures |r| == |items| && DenseIds(r)
    ensures forall i :: 0 <= i < |items| ==>
      && r[i].narrativeSegment == items[i].narrativeSegment
      && r[i].visualPrompt == items[i].visualPrompt
      && r[i].characters == items[i].characters
      && r[i].isLoading && r[i].imageUrl == None && r[i].error == None
  {
    seq(|items|, i requires 0 <= i < |items| => NewScene(i + 1, items[i]))
  }

  /** The first scene carrying the id, as the list's find does. */
  function Find(scenes: seq<Scene>, id: int): (r: Option<Scene>)
    ensures r.Some? <==> HasId(scenes, id)
    ensures r.Some? ==> exists i :: 0 <= i < |scenes| && scenes[i] == r.value && r.value.id == id
                                    && forall j :: 0 <= j < i ==> scenes[j].id != id
  {
    if scenes == [] then None
    else if scenes[0].id == id then Some(scenes[0])
    else
      var rest := Find(scenes[1..], id);
      assert forall k :: 0 <= k < |scenes| - 1 ==> scenes[1..][k] == scenes[k + 1];
      rest
  }

  // ---------------------------------------------------------------------
  // Properties of the updaters

  /** An update addressed to an id that is not in the list leaves it as it is. */
  lemma AbsentIdIsNoop(scenes: seq<Scene>, id: int, u: Update)
    requires !HasId(scenes, id)
    ensures UpdateById(scenes, id, u) == scenes
  {
  }

  /** Every update keeps the length, the order of the ids and each scene's
      immutable text. */
  lemma UpdateKeepsText(scenes: seq<Scene>, id: int, u: Update)
    ensures var r := UpdateById(scenes, id, u);
      |r| == |scenes| && forall i :: 0 <= i < |scenes| ==> SameText(r[i], scenes[i])
  {
  }

  /** Updates to two different scenes commute: completion order across
      scenes does not matter. */
  lemma UpdatesCommute(scenes: seq<Scene>, a: int, ua: Update, b: int, ub: Update)
    requires a != b
    ensures UpdateById(UpdateById(scenes, a, ua), b, ub) == UpdateById(UpdateById(scenes, b, ub), a, ua)
  {
  }

  /** With dense ids, an update for id k changes exactly the scene at
      position k - 1, and nothing when k is out of range. */
  lemma DenseUpdateTargetsOne(scenes: seq<Scene>, k: int, u: Update)
    requires DenseIds(scenes)
    ensures var r := UpdateById(scenes, k, u);
      && |r| == |scenes|
      && (forall i :: 0 <= i < |scenes| && i != k - 1 ==> r[i] == scenes[i])
      && (1 <= k <= |scenes| ==> r[k - 1] == Patch(scenes[k - 1], u))
  {
  }

  /** Starting a render on a scene that is already loading without an error
      changes nothing; so the renders started right after building the list
      leave it as built. */
  lemma StartLoadingIdle(scenes: seq<Scene>, id: int)
    requires forall i :: 0 <= i < |scenes| && scenes[i].id == id ==> scenes[i].isLoading && scenes[i].error == None
    ensures StartLoading(scenes, id) == scenes
  {
  }

  /** In a list with dense ids the first scene with id k is the one at
      position k - 1, and no scene has an id outside 1..N. */
  lemma DenseFind(scenes: seq<Scene>, k: int)
    requires DenseIds(scenes)
    ensures 1 <= k <= |scenes| ==> Find(scenes, k) == Some(scenes[k - 1])
    ensures !(1 <= k <= |scenes|) ==> Find(scenes, k) == None
  {
  }

  /** Building then looking up: scene k of a fresh list is item k - 1,
      pending, for every k in 1..N and for no other k. */
  lemma BuildThenFind(items: seq<SceneItem>, k: int)
    ensures 1 <= k <= |items| ==> Find(BuildScenes(items), k) == Some(NewScene(k, items[k - 1]))
    ensures !(1 <= k <= |items|) ==> Find(BuildScenes(items), k) == None
  {
  }

  /** Ids restart at 1 on every submission, so once the rebuilt list is
      installed a completion left over from an earlier submission lands on
      the new scene with the same id when that id is in 1..N; only a
      completion for an id beyond N is dropped. (Before the new list is
      installed the list is empty and every completion is dropped.) */
  lemma StaleCompletionLands(items: seq<SceneItem>, k: int, u: Update)
    ensures 1 <= k <= |items| ==>
      UpdateById(BuildScenes(items), k, u)[k - 1] == Patch(NewScene(k, items[k - 1]), u)
    ensures !(1 <= k <= |items|) ==> UpdateById(BuildScenes(items), k, u) == BuildScenes(items)
  {
  }

  // ---------------------------------------------------------------------
  // Any number of completions, applied one at a time to the current list

  /** Apply the completions in the order they arrive. */
  function ApplyAll(scenes: seq<Scene>, cs: seq<Completion>): seq<Scene>
    decreases |cs|
  {
    if cs == [] then scenes
    else ApplyAll(UpdateById(scenes, cs[0].sceneId, cs[0].update), cs[1..])
  }

  /** The updates addressed to one id, in arrival order. */
  function Targeting(cs: seq<Completion>, id: int): seq<Update> {
    if cs == [] then []
    else (if cs[0].sceneId == id then [cs[0].update] else []) + Targeting(cs[1..], id)
  }

  /** Apply updates to one scene in order. */
  function Replay(s: Scene, us: seq<Update>): Scene
    decreases |us|
  {
    if us == [] then s else Replay(Patch(s, us[0]), us[1..])
  }

  /** Each scene's final state depends only on the updates addressed to its
      own id, in their own order: other scenes' completions do not reach it. */
  lemma {:induction false} ApplyAllPointwise(scenes: seq<Scene>, cs: seq<Completion>)
    ensures |ApplyAll(scenes, cs)| == |scenes|
    ensures forall i :: 0 <= i < |scenes| ==>
      ApplyAll(scenes, cs)[i] == Replay(scenes[i], Targeting(cs, scenes[i].id))
    decreases |cs|
  {
    if cs != [] {
      var c := cs[0];
      var next := UpdateById(scenes, c.sceneId, c.update);
      ApplyAllPointwise(next, cs[1..]);
      forall i | 0 <= i < |scenes|
        ensures ApplyAll(scenes, cs)[i] == Replay(scenes[i], Targeting(cs, scenes[i].id))
      {
        if scenes[i].id == c.sceneId {
          assert next[i] == Patch(scenes[i], c.update);
          assert Targeting(cs, scenes[i].id) == [c.update] + Targeting(cs[1..], scenes[i].id);
          assert ([c.update] + Targeting(cs[1..], scenes[i].id))[1..] == Targeting(cs[1..], scenes[i].id);
        } else {
          assert next[i] == scenes[i];
          assert Targeting(cs, scenes[i].id) == Targeting(cs[1..], scenes[i].id);
        }
      }
    }
  }

  /** Completions may arrive in any interleaving: two arrival orders that
      agree on the order of the updates for each single id give the same
      list. */
  lemma CompletionOrderIrrelevant(scenes: seq<Scene>, cs1: seq<Completion>, cs2: seq<Completion>)
    requires forall id :: Targeting(cs1, id) == Targeting(cs2, id)
    ensures ApplyAll(scenes, cs1) == ApplyAll(scenes, cs2)
  {
    ApplyAllPointwise(scenes, cs1);
    ApplyAllPointwise(scenes, cs2);
    var r1, r2 := ApplyAll(scenes, cs1), ApplyAll(scenes, cs2);
    forall i | 0 <= i < |scenes| ensures r1[i] == r2[i] {
      assert Targeting(cs1, scenes[i].id) == Targeting(cs2, scenes[i].id);
    }
  }

  /** Replaying updates never touches a scene's id or text. */
  lemma {:induction false} ReplayKeepsText(s: Scene, us: seq<Update>)
    ensures SameText(Replay(s, us), s)
    decreases |us|
  {
    if us != [] {
      ReplayKeepsText(Patch(s, us[0]), us[1..]);
    }
  }

  /** However many completions arrive, the list keeps its length, its ids
      in order, and every scene's text. */
  lemma AllCompletionsKeepText(scenes: seq<Scene>, cs: seq<Completion>)
    ensures |ApplyAll(scenes, cs)| == |scenes|
    ensures forall i :: 0 <= i < |scenes| ==> SameText(ApplyAll(scenes, cs)[i], scenes[i])
  {
    ApplyAllPointwise(scenes, cs);
    forall i | 0 <= i < |scenes| ensures SameText(ApplyAll(scenes, cs)[i], scenes[i]) {
      ReplayKeepsText(scenes[i], Targeting(cs, scenes[i].id));
    }
  }

  /** A retry that succeeds: start-render then success leaves the scene with
      the new image, not loading and without an error note. */
  lemma RetrySucceeds(s: Scene, url: string)
    ensures Replay(s, [StartRender, RenderSucceeded(url)])
         == s.(imageUrl := Some(url), isLoading := false, error := None)
  {
    var us := [StartRender, RenderSucceeded(url)];
    var loading := Patch(s, StartRender);
    assert us[1..] == [RenderSucceeded(url)] && us[1..][1..] == [];
    assert Replay(s, us) == Replay(loading, [RenderSucceeded(url)]);
    assert Replay(loading, [RenderSucceeded(url)]) == Patch(loading, RenderSucceeded(url));
  }

  /** The failure updater does not clear an earlier image, so a scene can
      hold an image and an error note at once: a success followed by a
      failing retry leaves both. */
  lemma ImageAndErrorCoexist(s: Scene, url: string)
    ensures var t := Replay(s, [RenderSucceeded(url), StartRender, RenderFailed]);
      t.imageUrl == Some(url) && t.error == Some(RenderErrorMessage) && !t.isLoading
  {
    var us := [RenderSucceeded(url), StartRender, RenderFailed];
    var shown := Patch(s, RenderSucceeded(url));
    var retrying := Patch(shown, StartRender);
    assert us[1..] == [StartRender, RenderFailed];
    assert us[1..][1..] == [RenderFailed] && us[1..][1..][1..] == [];
    assert Replay(s, us) == Replay(shown, [StartRender, RenderFailed]);
    assert Replay(shown, [StartRender, RenderFailed]) == Replay(retrying, [RenderFailed]);
    assert Replay(retrying, [RenderFailed]) == Patch(retrying, RenderFailed);
  }
}
