# Storyboard scene list

A model of the state kept by the storyboard application's root component
(`App.tsx`). A story is sent to a story analyzer, which splits it into scene
items. The application turns them into a list of `Scene` records with ids
1..N, all loading. It then asks an image renderer for one illustration per
scene. Each render's outcome is written back into the list by id, and the
user can retry one scene. The state is three cells: the list `scenes`, the
flag `isAnalyzing` and the banner `generalError`.

- `scenes.dfy`, module `Scenes`: the `Scene` record (`types.ts`) and the pure
  updaters that are passed to the list setter. These are start-render, render
  success and render failure, each a map that patches only the scenes whose
  id matches. The module also holds the list construction, the lookup used by
  retry, and the lemmas about them.
- `storyboard.dfy`, module `Storyboard`: the class `App` holding the three
  state cells. Its methods are the steps of a submission (begin, analysis
  succeeded, analysis failed, and the whole handler), the two halves of a
  render (begin, finish) and retry.

The two remote services are not modelled. Their results are parameters:
`AnalysisOutcome` (items or failure) and `RenderOutcome` (URL or failure).
Calls to the image renderer are recorded in the field `App.renderCalls`, so
the model can say which renders were started, in which order and with which
prompt. Every completion is a separate method call applied to the list as it
is when the completion arrives.

Three behaviours of the code that the model keeps as written:
- The failure updater does not clear an earlier image, and start-render keeps
  it. A scene can therefore hold an image and an error note at once
  (`Scenes.ImageAndErrorCoexist`). Image and error are not mutually exclusive.
- Ids restart at 1 on every submission. A completion left over from an
  earlier submission that arrives after the new list is installed is applied
  to the new scene with the same id; only ids beyond the new N are dropped
  (`Scenes.StaleCompletionLands`). One that arrives while the analysis is
  pending, or after it failed, finds the empty list and is dropped
  (`Storyboard.App.BeginSubmit` empties the list, `Storyboard.App.FinishRender`
  on an absent id changes nothing).
- The success updater does not itself clear the error note. The note is
  cleared by the start-render that precedes every render
  (`Scenes.RetrySucceeds`).

## Model

| member | source | states |
|---|---|---|
| `Scenes.Patch` | App.tsx:16-32 | A single update keeps the scene's id and text. Start-render sets loading, clears the error and keeps the image. Success sets the image, stops loading and keeps the error. Failure stops loading, sets the fixed note and keeps the image. |
| `Scenes.UpdateById` | App.tsx:16-32 | The map-by-id keeps the length. Every scene with the target id is patched; every other scene is unchanged. |
| `Scenes.StartLoading` | App.tsx:16 | Scenes with id k become loading with no error and keep their image. All scenes keep their text. Scenes with other ids are unchanged. |
| `Scenes.ApplySuccess` | App.tsx:21-25 | Scenes with id k get the new image URL and stop loading. No scene's text or error changes. Scenes with other ids are unchanged. |
| `Scenes.ApplyFailure` | App.tsx:28-32 | Scenes with id k stop loading and get "Failed to generate image". Their image is kept. Scenes with other ids are unchanged. |
| `Scenes.BuildScenes` | App.tsx:45-51 | N items give N scenes with ids 1..N in input order. Each copies its item's three text fields, is loading, and has no image and no error. |
| `Scenes.Find` | App.tsx:71 | The result is present iff some scene has the id. When present it is the first scene with that id. |
| `Scenes.AbsentIdIsNoop` | App.tsx:16-32 | An update for an id not in the list leaves the list unchanged. |
| `Scenes.UpdateKeepsText` | App.tsx:16-32 | Every update keeps the length and each position's id, narrative segment, visual prompt and characters. |
| `Scenes.UpdatesCommute` | App.tsx:16-32 | Updates for two different ids give the same list in either order. |
| `Scenes.DenseUpdateTargetsOne` | App.tsx:16-32 | With ids 1..N, an update for k changes only position k-1, and nothing when k is outside 1..N. |
| `Scenes.StartLoadingIdle` | App.tsx:50-60 | Start-render on scenes that are already loading with no error changes nothing. So the renders started right after building leave the new list as built. |
| `Scenes.DenseFind` | App.tsx:70-75 | With ids 1..N, looking up k in 1..N finds position k-1; any other k finds nothing. |
| `Scenes.BuildThenFind` | App.tsx:45-51 | In a fresh list, id k is item k-1 as a new loading scene for every k in 1..N, and no other id is present. |
| `Scenes.StaleCompletionLands` | App.tsx:46 | After a resubmission, an update for an id in 1..N patches the new scene with that id. Any other id leaves the new list unchanged. |
| `Scenes.ApplyAllPointwise` | App.tsx:21-32 | After any sequence of completions, each scene is its original state with only the updates for its own id applied, in arrival order. |
| `Scenes.CompletionOrderIrrelevant` | App.tsx:21-32 | Two arrival orders with the same per-id update order give the same list. |
| `Scenes.ReplayKeepsText` | App.tsx:16-32 | Any number of updates to a scene keep its id and text. |
| `Scenes.AllCompletionsKeepText` | App.tsx:21-32 | Any sequence of completions keeps the length and each position's id and text. |
| `Scenes.RetrySucceeds` | App.tsx:16-25 | Start-render followed by success gives the new image, not loading, with no error note. |
| `Scenes.ImageAndErrorCoexist` | App.tsx:28-32 | Success, then start-render, then failure leaves both the image and the error note set. |
| `Storyboard.BuiltRequests` | App.tsx:53-60 | Starting one render per built scene issues N calls, for ids 1..N in order, each with its item's visual prompt. |
| `Storyboard.Completed` | App.tsx:18-33 | A render outcome for id k keeps the length and all text, and scene k stops loading. Success is the success updater and failure is the failure updater. Other scenes are unchanged. It is one step of the completion sequence that `Scenes.ApplyAll` folds. |
| `Storyboard.App.constructor` | App.tsx:10-12 | The initial state is an empty list, not analyzing, no banner. |
| `Storyboard.App.BeginRender` | App.tsx:14-19 | The list becomes start-render applied for the scene's id, and one renderer call is recorded with that scene's prompt. Ids stay 1..N and the flags are unchanged. |
| `Storyboard.App.FinishRender` | App.tsx:21-32 | The list becomes the outcome applied by id, which is one completion step as folded by `Scenes.ApplyAll`, so the order-independence lemmas cover it. An absent id leaves it unchanged. No other state changes, and the class invariant is kept. |
| `Storyboard.App.BeginSubmit` | App.tsx:37-39 | Analyzing is set, the banner is cleared and the list is emptied. |
| `Storyboard.App.AnalysisSucceeded` | App.tsx:45-66 | The list is the built list. Exactly one renderer call per scene is recorded, in list order. Analyzing ends false and the banner is untouched. |
| `Storyboard.App.AnalysisFailed` | App.tsx:62-66 | The banner holds the fixed message and analyzing ends false. The list and the renderer calls are untouched. |
| `Storyboard.App.HandleAnalyzeStory` | App.tsx:36-68 | Success gives the built list, no banner and one call per scene. Failure gives an empty list, the fixed banner and no call. Analyzing ends false either way. |
| `Storyboard.App.RetryScene` | App.tsx:70-75 | For an id in 1..N the scene restarts loading and one call with its current prompt is recorded. Any other id changes nothing. |

## Left out

- The story analyzer and the image renderer (`services/geminiService.ts`):
  prompt texts, JSON parsing of the reply and the building of the image
  `data:` URL. They are opaque calls whose outcome is a parameter.
- Asynchronous scheduling, React's batching of state updates and closure
  capture by `useCallback`. Each remote completion is one sequential step on
  the current state. Between installing the new list and leaving analyzing
  mode, the model passes through states where analyzing is set and the list
  is non-empty; React batches these, so they are not observable there.
- Logging of errors to the console.
- The presentation components (`components/Header.tsx`,
  `components/SceneCard.tsx`, `components/StoryInput.tsx`). This includes
  the card showing a retry button only for a scene with no image that is not
  loading and that has an error note, and the input form suppressing blank submissions. Any id may be
  retried and any story text submitted.
