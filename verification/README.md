# UI-panel composition rules of babloxr, in Dafny

`src/index.js` of the babloxr helpers builds 3D-scene UI panels on top of a
rendering engine: title bars, modal windows, multiple-choice quizzes, video
players with controls, and an XR-mode button. Nearly all of it configures the
engine. This project models the small pieces of logic the file does itself,
over an abstract scene. A scene is a set of live surface ids plus each
surface's size, parent and local position:

- `Geometry`: the pixel-to-scene scale (0.01), the local bounding box of a
  plane, and the bar size rule of `createBar` (a quarter of the panel height).
- `SceneGraph`: the abstract scene. It supports plane creation with fresh
  ids and the engine's `dispose()` of one surface.
- `Linker`: `linkMeshes`. The placement codes are `LINKED_UP`..`LINKED_CENTER`
  (1..5). `Offset` gives the child offset from the two bounding-box maxima.
  `Link` reparents the child and sets its position. An omitted placement
  means centre. Any other code leaves the position `None`, which is the
  source's `null`.
- `Windows`: `createBar` and `createWindow`. A window's bar sits on top of
  its body. The "Ok" dismiss action exists only when `showButton` is true.
- `Quiz`: `createTest` as a state machine over a `World` (scene plus quiz
  state). The quiz holds a `selected: Option<nat>` cell and a multiset of
  pending timers `(feedback window, success)`. Its events are radio
  notifications, submits, and timer firings. Runs of events are folded by
  `Run`. Lemmas characterise the selection after any run, and when the quiz
  stays live.
- `Media`: `createVideo`'s load event and `createControls`. The play button
  toggles between two configurations. "Omitir" (skip) resumes playback and
  disposes the video and the strip.
- `XRToggle`: `createXR`, with the two support answers and the engine's
  session state as inputs. It covers the session mode, whether the button
  is wired, the state-to-visibility map for ground and skybox, and the click
  rule.

Timers are not clock time. Firing a pending timer is an explicit event
(`Quiz.TimerFired`), and any pending timer may fire at any point, in any
order. The 2000 ms delay of the source is therefore not represented.

Three behaviours of `src/index.js` are worth stating plainly, and the model
keeps them:

- An unrecognised placement code leaves the child's position `null`
  (src/index.js:134, 163-164).
- AR support without VR support selects the `"inline"` mode
  (src/index.js:469-482).
- The XR button is wired only when both immersive modes are supported
  (src/index.js:495-499). A wired button therefore always requests
  `"immersive-ar"` (`XRToggle.WiredButtonUsesAR`).

## Model

| member | source | states |
|---|---|---|
| Geometry.BarSize | src/index.js:17-23 | a bar is as wide as the panel it decorates and a quarter of its height (both scaled by 0.01) |
| Linker.Recognise | src/index.js:4-8 | a code selects a placement exactly when it is one of the five constants, and the selected placement has that code |
| Linker.CodeRoundTrip | src/index.js:4-8 | placements and codes 1..5 correspond one to one in both directions |
| Linker.Offset | src/index.js:132-161 | UP gives (0, p.y+c.y, 0), DOWN gives (0, -(p.y+c.y), 0), RIGHT and LEFT give (±(p.x+c.x), 0, 0) (the child's near edge lies on the parent's far edge), CENTER gives the zero vector, any other code gives `null` |
| Linker.OppositePlacements | src/index.js:138-156 | DOWN mirrors UP on the Y axis and LEFT mirrors RIGHT on the X axis |
| Linker.PlacementArg | src/index.js:132 | an omitted placement argument defaults to LINKED_CENTER and a given one is used unchanged |
| Linker.Link | src/index.js:132-165 | in every case the child's parent becomes the given parent and its position becomes the computed offset; nothing else in the scene changes |
| Linker.DefaultLinkCentres | src/index.js:158-164 | linking without a placement puts the child at the origin of its new parent |
| Linker.UnknownCodeLeavesNull | src/index.js:134-164 | a code outside 1..5 leaves the position `null` but still reparents the child |
| Windows.CreateBar | src/index.js:17-51 | the bar is one new live plane, as wide as the panel and a quarter of its height, and no existing surface changes |
| Windows.CreateWindow | src/index.js:176-232 | the window is two new live surfaces, with the bar linked flush on top of the body; it is dismissable iff `showButton`; no existing surface changes |
| Windows.Dismiss | src/index.js:205-219 | the dismiss action exists iff the window was made with `showButton`; firing it disposes the body and the bar and no other surface |
| Windows.CreateThenDismiss | src/index.js:205-230 | creating a dismissable window and pressing "Ok" restores the set of live surfaces |
| Quiz.Judge | src/index.js:328-339 | no selection means a warning, a selection equal to `correct_answer` means success, any other selection means an error |
| Quiz.CreateTest | src/index.js:248-364 | the quiz is a new body and bar (bar on top) with one option per answer, option k storing index k; it starts with no selection and no pending timer |
| Quiz.RadioChanged | src/index.js:305-309 | a `checked = true` notification from radio i sets the selection to i; any other notification leaves it unchanged |
| Quiz.Submit | src/index.js:326-341 | a submit creates exactly one new non-dismissable window, titled "Advertencia", "Exito" or "Error" by the selection and centred on the quiz body; it adds one pending timer, marked successful iff the selection is correct |
| Quiz.FireTimer | src/index.js:343-351 | a firing timer disposes its feedback window, and disposes the quiz body and bar iff its submit was a success; the selection is unchanged and the timer leaves the pending multiset |
| Quiz.Step | src/index.js:305-351 | every event keeps the quiz invariant and the quiz configuration, and any surface that becomes live is a new one |
| Quiz.Run | src/index.js:284-351 | any sequence of events keeps the quiz invariant and configuration, and revives no disposed surface |
| Quiz.StepSelection | src/index.js:305-309 | one event changes the selection exactly when it is a `checked = true` notification from an existing radio, and then sets it to that radio's index |
| Quiz.SelectionKeptWithoutChoice | src/index.js:284-309 | with no `checked = true` radio event, the selection after a run is the one before it; unchecked notifications, submits and timers never clear or change it |
| Quiz.SelectionIsLastChoice | src/index.js:305-309 | after a run, the selection is the radio of the last `checked = true` radio event |
| Quiz.QuizLiveWithoutSuccess | src/index.js:343-351 | the quiz body and bar stay live through any run in which no successful timer fires |
| Quiz.QuizStaysDisposed | src/index.js:346-349 | once the quiz body and bar are disposed, no run makes them live again |
| Quiz.SubmitThenTimer | src/index.js:326-351 | a submit followed by its own timer removes the feedback window; it disposes the quiz iff the answer was correct, and otherwise keeps the selection and the other pending timers |
| Quiz.ThreeAnswerExample | src/index.js:328-339 | with three answers and `correct_answer = 1`, choosing 1 succeeds, choosing 0 or 2 is an error, choosing nothing is a warning, and a later unchecked notification does not undo a choice |
| Media.CreateVideo | src/index.js:388-405 | the video is one new live surface that starts paused and muted, with no bar and no controls |
| Media.OnLoad | src/index.js:407-424 | loading creates a bar linked on top and a controls strip a quarter of the video's height linked below; the strip shows "Reproducir" on green/white |
| Media.TogglePlay | src/index.js:93-108 | before loading nothing happens; afterwards a paused video plays unmuted with "Pausar" yellow/black, a playing one pauses muted with "Reproducir" green/white, and the result is always one of those two configurations |
| Media.ToggleTwice | src/index.js:95-107 | from either configuration, one click changes it and two clicks restore it |
| Media.ToggleParity | src/index.js:77-108 | after n clicks from the loaded state, the video is paused and shows "Reproducir" iff n is even |
| Media.PlaybackEnded | src/index.js:400 | the video does not loop: at its end the element pauses itself, while the button look and the mute state stay as they were |
| Media.EndedThenClick | src/index.js:95-100 | after a playing video ends, the controls show "Pausar" on a paused video; the next click plays it unmuted and restores the configuration before the end |
| Media.Skip | src/index.js:110-115 | skip forces playing and unmuted and disposes exactly the video surface and the controls strip |
| Media.LoadThenSkip | src/index.js:110-115 | after load then skip, the video and the strip are disposed and the panel's title bar is still live |
| Media.LoadThenPlay | src/index.js:399-424 | loading then clicking play starts the video unmuted and shows "Pausar" |
| XRToggle.ChooseMode | src/index.js:469-482 | the mode name is "immersive-ar" iff both modes are supported, "immersive-vr" iff only VR is, and "inline" iff VR is not |
| XRToggle.MakeButton | src/index.js:484-499 | the button is wired iff both modes are supported, and otherwise reads "Experiencia XR no compatible" |
| XRToggle.WiredButtonUsesAR | src/index.js:472-499 | a wired button's mode is always "immersive-ar"; the VR mode only goes with an unwired button |
| XRToggle.ResolveEnvironment | src/index.js:510-517 | when the button is wired, a missing ground or skybox is taken from the default environment and a given one is kept |
| XRToggle.OnStateChanged | src/index.js:544-612 | with AR supported, ENTERING_XR hides ground and skybox, NOT_IN_XR shows them, and other states (or no AR support) change nothing |
| XRToggle.EnterThenLeaveShows | src/index.js:574-606 | entering and then leaving XR leaves ground visibility 1 and the skybox visible |
| XRToggle.Click | src/index.js:614-628 | a click on a wired button enters only from NOT_IN_XR and exits only from IN_XR, updating the caption; otherwise, and always on an unwired button, it does nothing |
| XRToggle.ClickCycle | src/index.js:614-628 | outside XR a click requests AR entry, in XR a click requests exit, and the button returns to its first caption |

## Left out

- `createAudio` and `createImage`: asynchronous asset loading into the engine, with no logic of their own.
- GUI construction and styling: textures, grids, fonts, rectangle colours, mesh names, and the XR button's hover colours. This is engine code.
- Text rendering: the bar title, the window text and the quiz question are carried as strings only where a branch chooses them.
- Radio-group mutual exclusion and hit-testing belong to the GUI library. Radio notifications are free inputs.
- Real timing: the 2000 ms `setTimeout` is an explicit timer event with no clock.
- The XR session lifecycle: capability probing, `createDefaultXRExperienceAsync`, `enterXRAsync` and `exitXRAsync`. Support answers and session states are inputs. Clicks return a request instead.
- The contents of the engine's default environment. Its ground and skybox are an input to `XRToggle.ResolveEnvironment`.
- The VR `switch` in the state observer has only empty cases, so it has no effect and is not represented.
- SceneGraph.Dispose: removes only the disposed surface. The engine also disposes a mesh's children by default. That cascade is engine behaviour, so a feedback window's own bar stays live in the model after its timer fires.
- Media.Skip: disposes the video and the strip only. In the program, disposing the video also disposes the title bar linked under it (src/index.js:420), so three surfaces go. `Media.LoadThenSkip` states what the model keeps live.
- Quiz.FireTimer: a success timer disposes the quiz body and bar only. In the program, disposing the quiz body also disposes every feedback window still linked under it (src/index.js:341). Their own timers later call `dispose()` on them a second time.
- Media.ToggleParity: holds for runs of clicks only. The end of playback is `Media.PlaybackEnded`, which breaks the two-configuration pairing until the next click (`Media.EndedThenClick`). A `play()` the browser rejects is not modelled; the click handler then shows "Pausar" on a paused video.
- Quiz.Step: accepts radio and submit events after the quiz body is disposed. In the program those controls sit on a disposed mesh and cannot fire. Allowing them is an over-approximation; the proved properties hold for these extra runs too.
- Media.TogglePlay: accepts clicks after `Media.Skip` has disposed the strip, as does `Media.Skip` itself. In the program the buttons are gone by then. This is the same over-approximation as for the quiz.
- Geometry.BoundingMax: assumes the engine's planes are centred on their origin. Their bounding-box maximum is then half the width and half the height.
- Media.OnLoad: a second load event creates a second bar and strip, as the source would. The panel keeps only the latest ones.
