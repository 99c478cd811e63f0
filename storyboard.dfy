/** The application's state: the scene list, the "analyzing" flag and the
    general error banner, together with the render calls it has issued.
    Each remote completion is a separate method call applied to the state
    as it is when the completion arrives. */
module Storyboard {
  import opened Scenes

  /** The fixed banner shown when the story analysis fails. */
  const AnalysisErrorMessage: string := "عذراً، لم نتمكن من تحليل القصة. يرجى التأكد من الاتصال بالإنترنت والمحاولة مرة أخرى."

  /** One call to the image renderer: the scene it is for and its prompt. */
  datatype RenderRequest = RenderRequest(sceneId: int, prompt: string)

  /** What the story analyzer returned: its scene items, or a failure. */
  datatype AnalysisOutcome = Analyzed(items: seq<SceneItem>) | AnalysisError

  /** What the image renderer returned: an image URL, or a failure. */
  datatype RenderOutcome = Rendered(url: string) | RenderError

  /** The render calls issued by starting one render per scene, in list order. */
  function RequestsFor(scenes: seq<Scene>): seq<RenderRequest> {
    seq(|scenes|, i requires 0 <= i < |scenes| => RenderRequest(scenes[i].id, scenes[i].visualPrompt))
  }

  /** Submitting a story that the analyzer splits into N items issues exactly
      N render calls, for ids 1..N in order, each with its item's prompt. */
  lemma BuiltRequests(items: seq<SceneItem>)
    ensures |RequestsFor(BuildScenes(items))| == |items|
    ensures forall i :: 0 <= i < |items| ==>
      RequestsFor(BuildScenes(items))[i] == RenderRequest(i + 1, items[i].visualPrompt)
  {
  }

  /** The update a render outcome makes to its own scene. */
  function Effect(outcome: RenderOutcome): Update {
    match outcome
    case Rendered(url) => RenderSucceeded(url)
    case RenderError => RenderFailed
  }

  /** The new list after a render completes for the scene with this id. */
  function Completed(scenes: seq<Scene>, sceneId: int, outcome: RenderOutcome): (r: seq<Scene>)
    ensures |r| == |scenes|
    ensures forall i :: 0 <= i < |scenes| ==> SameText(r[i], scenes[i])
    ensures forall i :: 0 <= i < |scenes| && scenes[i].id == sceneId ==> !r[i].isLoading
    ensures forall i :: 0 <= i < |scenes| && scenes[i].id != sceneId ==> r[i] == scenes[i]
    ensures outcome.Rendered? ==> r == ApplySuccess(scenes, sceneId, outcome.url)
    ensures outcome.RenderError? ==> r == ApplyFailure(scenes, sceneId)
    ensures r == ApplyAll(scenes, [Completion(sceneId, Effect(outcome))])
  {
    assert [Completion(sceneId, Effect(outcome))][1..] == [];
    UpdateById(scenes, sceneId, Effect(outcome))
  }

  class App {
    var scenes: seq<Scene>
    var isAnalyzing: bool
    var generalError: Option<string>
    /** Every call made to the image renderer so far, oldest first. */
    var renderCalls: seq<RenderRequest>

    /** The ids are always 1..N, and while a story is being analyzed the
        list is empty. */
    ghost predicate Valid()
      reads this
    {
      DenseIds(scenes) && (isAnalyzing ==> scenes == [])
    }

    constructor ()
      ensures Valid()
      ensures scenes == [] && !isAnalyzing && generalError == None && renderCalls == []
    {
      scenes, isAnalyzing, generalError, renderCalls := [], false, None, [];
    }

    /** The start of a render: mark the scene with this id as loading and
        send its prompt to the image renderer. */
    method BeginRender(scene: Scene)
      requires DenseIds(scenes)
      modifies this
      ensures DenseIds(scenes)
      ensures old(Valid()) ==> Valid()
      ensures scenes == StartLoading(old(scenes), scene.id)
      ensures renderCalls == old(renderCalls) + [RenderRequest(scene.id, scene.visualPrompt)]
      ensures isAnalyzing == old(isAnalyzing) && generalError == old(generalError)
    {
      scenes := StartLoading(scenes, scene.id);
      renderCalls := renderCalls + [RenderRequest(scene.id, scene.visualPrompt)];
    }

    /** The end of a render: apply its outcome to the scene with this id in
        the current list; nothing happens when no scene has that id. */
    method FinishRender(sceneId: int, outcome: RenderOutcome)
      requires Valid()
      modifies this
      ensures Valid()
      ensures scenes == Completed(old(scenes), sceneId, outcome)
      ensures scenes == ApplyAll(old(scenes), [Completion(sceneId, Effect(outcome))])
      ensures !HasId(old(scenes), sceneId) ==> scenes == old(scenes)
      ensures isAnalyzing == old(isAnalyzing) && generalError == old(generalError)
      ensures renderCalls == old(renderCalls)
    {
      if !HasId(scenes, sceneId) {
        AbsentIdIsNoop(scenes, sceneId, Effect(outcome));
      }
      scenes := Completed(scenes, sceneId, outcome);
    }

    /** Submitting a story: enter analyzing mode, clear the banner and the list. */
    method BeginSubmit()
      modifies this
      ensures Valid()
      ensures isAnalyzing && generalError == None && scenes == []
      ensures renderCalls == old(renderCalls)
    {
      isAnalyzing := true;
      generalError := None;
      scenes := [];
    }

    /** The analyzer succeeded: install the new scenes, all loading, start one
        render per scene in list order, then leave analyzing mode. */
    method AnalysisSucceeded(items: seq<SceneItem>)
      modifies this
      ensures Valid()
      ensures scenes == BuildScenes(items)
      ensures renderCalls == old(renderCalls) + RequestsFor(BuildScenes(items))
      ensures !isAnalyzing && generalError == old(generalError)
    {
      var newScenes := BuildScenes(items);
      scenes := newScenes;
      for i := 0 to |newScenes|
        invariant scenes == newScenes
        invariant renderCalls == old(renderCalls) + RequestsFor(newScenes[..i])
        invariant generalError == old(generalError)
      {
        StartLoadingIdle(newScenes, newScenes[i].id);
        BeginRender(newScenes[i]);
        assert RequestsFor(newScenes[..i + 1]) == RequestsFor(newScenes[..i]) + [RenderRequest(newScenes[i].id, newScenes[i].visualPrompt)];
      }
      assert newScenes[..|newScenes|] == newScenes;
      isAnalyzing := false;
    }

    /** The analyzer failed: show the fixed banner and leave analyzing mode;
        the list is not touched. */
    method AnalysisFailed()
      requires Valid()
      modifies this
      ensures Valid()
      ensures generalError == Some(AnalysisErrorMessage) && !isAnalyzing
      ensures scenes == old(scenes) && renderCalls == old(renderCalls)
    {
      generalError := Some(AnalysisErrorMessage);
      isAnalyzing := false;
    }

    /** The whole submission, with the analyzer's outcome as a parameter. */
    method HandleAnalyzeStory(outcome: AnalysisOutcome)
      modifies this
      ensures Valid() && !isAnalyzing
      ensures outcome.Analyzed? ==>
        && scenes == BuildScenes(outcome.items)
        && generalError == None
        && renderCalls == old(renderCalls) + RequestsFor(scenes)
      ensures outcome.AnalysisError? ==>
        && scenes == []
        && generalError == Some(AnalysisErrorMessage)
        && renderCalls == old(renderCalls)
    {
      BeginSubmit();
      match outcome
      case Analyzed(items) => AnalysisSucceeded(items);
      case AnalysisError => AnalysisFailed();
    }

    /** Retry: re-render the scene with this id if the list has one; the
        prompt sent is that scene's own. */
    method RetryScene(sceneId: int)
      requires Valid()
      modifies this
      ensures Valid()
      ensures isAnalyzing == old(isAnalyzing) && generalError == old(generalError)
      ensures 1 <= sceneId <= |old(scenes)| ==>
        && scenes == StartLoading(old(scenes), sceneId)
        && renderCalls == old(renderCalls) + [RenderRequest(sceneId, old(scenes)[sceneId - 1].visualPrompt)]
      ensures !(1 <= sceneId <= |old(scenes)|) ==> scenes == old(scenes) && renderCalls == old(renderCalls)
    {
      DenseFind(scenes, sceneId);
      var found := Find(scenes, sceneId);
      if found.Some? {
        BeginRender(found.value);
      }
    }
  }
}
