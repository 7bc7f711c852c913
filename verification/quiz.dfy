/** The quiz composer (`createTest`) as a state machine: radio notifications
    update the selection cell, each submit spawns a feedback window and
    schedules a timer, and each timer, when it fires, disposes its feedback
    window and, after a correct answer, the quiz itself. */
module Quiz {

  import opened Wrappers
  import opened Geometry
  import opened SceneGraph
  import opened Linker
  import opened Windows

  /** How a submit judges the current selection. */
  datatype Verdict = Unanswered | Correct | Incorrect

  function Judge(selected: Option<nat>, correct: int): (v: Verdict)
    ensures v == Unanswered <==> selected.None?
    ensures v == Correct <==> selected.Some? && selected.value == correct
    ensures v == Incorrect <==> selected.Some? && selected.value != correct
  {
    match selected
    case None => Unanswered
    case Some(i) => if i == correct then Correct else Incorrect
  }

  const WarningTitle: string := "Advertencia"
  const SuccessTitle: string := "Exito"
  const ErrorTitle: string := "Error"
  const WarningText: string := "Debes seleccionar una respuesta"

  /** One radio option: its label and the index its change handler stores. */
  datatype AnswerOption = AnswerOption(caption: string, index: nat)

  /** A scheduled timer: the feedback window it disposes and whether the
      submit that scheduled it was a success. */
  datatype Pending = Pending(window: SurfaceId, success: bool)

  datatype QuizState = QuizState(
    body: SurfaceId,
    bar: SurfaceId,
    heightPx: real,
    widthPx: real,
    correct: int,
    correctMessage: string,
    incorrectMessage: string,
    options: seq<AnswerOption>,
    selected: Option<nat>,
    pending: multiset<Pending>)

  datatype World = World(scene: Scene, quiz: QuizState)

  /** The quiz's fixed configuration: everything but the selection and the
      pending timers. */
  predicate SameConfig(a: QuizState, b: QuizState)
  {
    a.(selected := None, pending := multiset{}) == b.(selected := None, pending := multiset{})
  }

  /** The invariant every reachable quiz keeps. */
  predicate Wf(w: World)
  {
    var q := w.quiz;
    && Valid(w.scene)
    && q.body in w.scene.size && q.bar in w.scene.size && q.body != q.bar
    && (forall k :: 0 <= k < |q.options| ==> q.options[k].index == k)
    && (q.selected.Some? ==> q.selected.value < |q.options|)
    && (forall p :: p in q.pending ==> p.window in w.scene.size && p.window != q.body && p.window != q.bar)
  }

  /** `createTest`: a bar and a body linked on top of each other, one radio
      option per answer (option k stores index k), nothing selected and no
      timer pending. */
  method CreateTest(s: Scene, heightPx: real, widthPx: real, correct: int,
                    correctMessage: string, incorrectMessage: string, answers: seq<string>)
    returns (w: World)
    requires Valid(s)
    ensures Wf(w) && Extends(s, w.scene)
    ensures w.quiz.body !in s.size && w.quiz.bar !in s.size
    ensures w.scene.live == s.live + {w.quiz.body, w.quiz.bar}
    ensures SitsOnTop(w.scene, w.quiz.bar, w.quiz.body)
    ensures |w.quiz.options| == |answers|
    ensures forall k :: 0 <= k < |answers| ==> w.quiz.options[k] == AnswerOption(answers[k], k)
    ensures w.quiz.selected == None && w.quiz.pending == multiset{}
    ensures w.quiz.correct == correct && w.quiz.heightPx == heightPx && w.quiz.widthPx == widthPx
    ensures w.quiz.correctMessage == correctMessage && w.quiz.incorrectMessage == incorrectMessage
  {
    var b := CreateBar(s, widthPx, heightPx);
    var p := CreatePlane(b.0, PanelSize(widthPx, heightPx));
    var options: seq<AnswerOption> := [];
    var i := 0;
    while i < |answers|
      invariant 0 <= i <= |answers|
      invariant |options| == i
      invariant forall k :: 0 <= k < i ==> options[k] == AnswerOption(answers[k], k)
    {
      options := options + [AnswerOption(answers[i], i)];
      i := i + 1;
    }
    var linked := Link(p.0, p.1, b.1, Some(LinkedUp));
    w := World(linked, QuizState(p.1, b.1, heightPx, widthPx, correct, correctMessage,
                                 incorrectMessage, options, None, multiset{}));
  }

  /** Radio `radio` reports its checked state. Only a `true` notification
      from an existing radio changes the selection, and it sets it to that
      radio's index; nothing else changes. */
  function RadioChanged(w: World, radio: nat, checked: bool): (r: World)
    requires Wf(w)
    ensures Wf(r) && r.scene == w.scene && SameConfig(r.quiz, w.quiz) && r.quiz.pending == w.quiz.pending
    ensures checked && radio < |w.quiz.options| ==> r.quiz.selected == Some(radio)
    ensures !(checked && radio < |w.quiz.options|) ==> r.quiz.selected == w.quiz.selected
  {
    if checked && radio < |w.quiz.options| then
      w.(quiz := w.quiz.(selected := Some(w.quiz.options[radio].index)))
    else w
  }

  /** The title and text of the feedback window for a verdict. */
  function Feedback(q: QuizState, v: Verdict): (t: (string, string))
  {
    match v
    case Unanswered => (WarningTitle, WarningText)
    case Correct => (SuccessTitle, q.correctMessage)
    case Incorrect => (ErrorTitle, q.incorrectMessage)
  }

  /** Pressing "Enviar": exactly one new window without a dismiss button,
      centred on the quiz body, titled by the verdict on the current
      selection, and one more pending timer for it, marked successful exactly
      when the selection is the correct answer. */
  function Submit(w: World): (r: (World, Window))
    requires Wf(w)
    ensures Wf(r.0)
    ensures SameConfig(r.0.quiz, w.quiz) && r.0.quiz.selected == w.quiz.selected
    ensures r.1.body !in w.scene.size && r.1.bar !in w.scene.size && r.1.body != r.1.bar
    ensures r.0.scene.live == w.scene.live + {r.1.body, r.1.bar}
    ensures !r.1.dismissable
    ensures r.1.body in r.0.scene.parent && r.0.scene.parent[r.1.body] == w.quiz.body
    ensures r.1.body in r.0.scene.position && r.0.scene.position[r.1.body] == Some(Origin)
    ensures w.quiz.selected.None? ==> r.1.title == WarningTitle && r.1.text == WarningText
    ensures w.quiz.selected == Some(w.quiz.correct) ==>
      r.1.title == SuccessTitle && r.1.text == w.quiz.correctMessage
    ensures w.quiz.selected.Some? && w.quiz.selected.value != w.quiz.correct ==>
      r.1.title == ErrorTitle && r.1.text == w.quiz.incorrectMessage
    ensures r.0.quiz.pending ==
      w.quiz.pending + multiset{Pending(r.1.body, w.quiz.selected == Some(w.quiz.correct))}
  {
    var q := w.quiz;
    var v := Judge(q.selected, q.correct);
    var fb := Feedback(q, v);
    var c := CreateWindow(w.scene, q.heightPx, q.widthPx, fb.0, fb.1, false);
    var linked := Link(c.0, q.body, c.1.body, None);
    (World(linked, q.(pending := q.pending + multiset{Pending(c.1.body, v == Correct)})), c.1)
  }

  /** A pending timer fires: its feedback window is disposed, the quiz body
      and bar are disposed exactly when its submit was a success, and the
      timer is no longer pending. A timer that is not pending cannot fire,
      so such an event changes nothing. */
  function FireTimer(w: World, p: Pending): (r: World)
    requires Wf(w)
    ensures Wf(r) && SameConfig(r.quiz, w.quiz) && r.quiz.selected == w.quiz.selected
    ensures r.scene.size == w.scene.size && r.scene.parent == w.scene.parent
    ensures r.scene.position == w.scene.position && r.scene.next == w.scene.next
    ensures p !in w.quiz.pending ==> r == w
    ensures p in w.quiz.pending ==> r.quiz.pending == w.quiz.pending - multiset{p}
    ensures p in w.quiz.pending ==> p.window !in r.scene.live
    ensures p in w.quiz.pending ==> forall id :: id in r.scene.live <==>
      id in w.scene.live && id != p.window && (p.success ==> id != w.quiz.body && id != w.quiz.bar)
  {
    var q := w.quiz;
    if p !in q.pending then w
    else
      var s1 := Dispose(w.scene, p.window);
      var s2 := if p.success then Dispose(Dispose(s1, q.body), q.bar) else s1;
      World(s2, q.(pending := q.pending - multiset{p}))
  }

  /** The events a quiz reacts to. */
  datatype Event =
    | Radio(radio: nat, checked: bool)
    | SubmitPressed
    | TimerFired(entry: Pending)

  /** One event: the selection, the pending timers and the scene evolve; the
      quiz configuration never does, and a surface that becomes live is a
      new one. */
  function Step(w: World, e: Event): (r: World)
    requires Wf(w)
    ensures Wf(r) && SameConfig(r.quiz, w.quiz)
    ensures forall id :: id in r.scene.live && id !in w.scene.live ==> id !in w.scene.size
    ensures Extends(w.scene, r.scene)
  {
    match e
    case Radio(k, checked) => RadioChanged(w, k, checked)
    case SubmitPressed => Submit(w).0
    case TimerFired(p) => FireTimer(w, p)
  }

  /** The world after a sequence of events. */
  function Run(w: World, evs: seq<Event>): (r: World)
    requires Wf(w)
    ensures Wf(r) && SameConfig(r.quiz, w.quiz)
    ensures forall id :: id in r.scene.live && id !in w.scene.live ==> id !in w.scene.size
    ensures Extends(w.scene, r.scene)
    decreases |evs|
  {
    if |evs| == 0 then w
    else Step(Run(w, evs[..|evs| - 1]), evs[|evs| - 1])
  }

  /** An event that sets the selection of a quiz with `n` options. */
  predicate Selects(e: Event, n: nat)
  {
    e.Radio? && e.checked && e.radio < n
  }

  /** One event changes the selection exactly when it selects: it becomes
      that radio's index. */
  lemma StepSelection(w: World, e: Event)
    requires Wf(w)
    ensures Step(w, e).quiz.options == w.quiz.options
    ensures Step(w, e).quiz.selected ==
      if Selects(e, |w.quiz.options|) then Some(e.radio) else w.quiz.selected
  {
  }

  /** Without a selecting radio event, the selection never changes:
      unchecked notifications, submits and timers leave it alone. */
  lemma {:induction false} SelectionKeptWithoutChoice(w: World, evs: seq<Event>)
    requires Wf(w)
    requires forall j :: 0 <= j < |evs| ==> !Selects(evs[j], |w.quiz.options|)
    ensures Run(w, evs).quiz.selected == w.quiz.selected
    decreases |evs|
  {
    if |evs| > 0 {
      var init := evs[..|evs| - 1];
      assert forall j :: 0 <= j < |init| ==> init[j] == evs[j];
      SelectionKeptWithoutChoice(w, init);
      assert Run(w, evs) == Step(Run(w, init), evs[|evs| - 1]);
      StepSelection(Run(w, init), evs[|evs| - 1]);
    }
  }

  /** The selection is the radio of the last selecting event. */
  lemma {:induction false} SelectionIsLastChoice(w: World, evs: seq<Event>, j: nat)
    requires Wf(w)
    requires j < |evs| && Selects(evs[j], |w.quiz.options|)
    requires forall k :: j < k < |evs| ==> !Selects(evs[k], |w.quiz.options|)
    ensures Run(w, evs).quiz.selected == Some(evs[j].radio)
    decreases |evs|
  {
    var init := evs[..|evs| - 1];
    assert forall k :: 0 <= k < |init| ==> init[k] == evs[k];
    if j < |evs| - 1 {
      SelectionIsLastChoice(w, init, j);
    }
    assert Run(w, evs) == Step(Run(w, init), evs[|evs| - 1]);
    StepSelection(Run(w, init), evs[|evs| - 1]);
  }

  /** The quiz body and bar stay live through any run in which no successful
      timer fires. */
  lemma {:induction false} QuizLiveWithoutSuccess(w: World, evs: seq<Event>)
    requires Wf(w) && w.quiz.body in w.scene.live && w.quiz.bar in w.scene.live
    requires forall j :: 0 <= j < |evs| ==> !(evs[j].TimerFired? && evs[j].entry.success)
    ensures Run(w, evs).quiz.body in Run(w, evs).scene.live
    ensures Run(w, evs).quiz.bar in Run(w, evs).scene.live
    decreases |evs|
  {
    if |evs| > 0 {
      var init := evs[..|evs| - 1];
      assert forall k :: 0 <= k < |init| ==> init[k] == evs[k];
      QuizLiveWithoutSuccess(w, init);
      assert Run(w, evs) == Step(Run(w, init), evs[|evs| - 1]);
    }
  }

  /** Once disposed, the quiz body and bar never come back. */
  lemma QuizStaysDisposed(w: World, evs: seq<Event>)
    requires Wf(w) && w.quiz.body !in w.scene.live && w.quiz.bar !in w.scene.live
    ensures Run(w, evs).quiz.body !in Run(w, evs).scene.live
    ensures Run(w, evs).quiz.bar !in Run(w, evs).scene.live
  {
  }

  /** A submit followed by its own timer: the feedback window is gone, the
      quiz is disposed exactly on a correct answer, and otherwise the quiz is
      still live with the same selection and the same pending timers. */
  lemma SubmitThenTimer(w: World)
    requires Wf(w) && w.quiz.body in w.scene.live && w.quiz.bar in w.scene.live
    ensures var c := Submit(w);
            var after := FireTimer(c.0, Pending(c.1.body, w.quiz.selected == Some(w.quiz.correct)));
            && c.1.body !in after.scene.live
            && (w.quiz.body in after.scene.live <==> w.quiz.selected != Some(w.quiz.correct))
            && (w.quiz.bar in after.scene.live <==> w.quiz.selected != Some(w.quiz.correct))
            && after.quiz.selected == w.quiz.selected
            && after.quiz.pending == w.quiz.pending
  {
    var c := Submit(w);
    var p := Pending(c.1.body, w.quiz.selected == Some(w.quiz.correct));
    assert p in c.0.quiz.pending;
    assert c.0.quiz.pending - multiset{p} == w.quiz.pending;
  }

  /** Three answers with the second one correct: choosing it is a success,
      choosing either other is an error, choosing none is a warning. */
  lemma ThreeAnswerExample(w: World)
    requires Wf(w) && |w.quiz.options| == 3 && w.quiz.correct == 1 && w.quiz.selected.None?
    ensures Submit(w).1.title == WarningTitle
    ensures Submit(RadioChanged(w, 1, true)).1.title == SuccessTitle
    ensures Submit(RadioChanged(w, 0, true)).1.title == ErrorTitle
    ensures Submit(RadioChanged(w, 2, true)).1.title == ErrorTitle
    ensures Submit(RadioChanged(RadioChanged(w, 1, true), 1, false)).1.title == SuccessTitle
  {
    var w1 := RadioChanged(w, 1, true);
    assert w1.quiz.selected == Some(1) && w1.quiz.correct == 1;
    var w0 := RadioChanged(w, 0, true);
    assert w0.quiz.selected == Some(0) && w0.quiz.correct == 1;
    var w2 := RadioChanged(w, 2, true);
    assert w2.quiz.selected == Some(2) && w2.quiz.correct == 1;
    assert RadioChanged(w1, 1, false) == w1;
  }

}
