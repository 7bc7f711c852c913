/** The XR toggle (`createXR`), with the platform's support answers and the
    engine's session state taken as inputs: the session mode chosen, whether
    the button is wired, how the session state drives the visibility of the
    ground and the skybox, and what a click requests. */
module XRToggle {

  import opened Wrappers

  datatype SessionMode = Inline | ImmersiveVR | ImmersiveAR

  function ModeName(m: SessionMode): string
  {
    match m
    case Inline => "inline"
    case ImmersiveVR => "immersive-vr"
    case ImmersiveAR => "immersive-ar"
  }

  const ReferenceSpace: string := "local-floor"

  /** The session mode: AR when both modes are supported, VR when only VR
      is, inline otherwise (AR support alone is not enough). */
  function ChooseMode(vrSupported: bool, arSupported: bool): (m: SessionMode)
    ensures m == ImmersiveAR <==> vrSupported && arSupported
    ensures m == ImmersiveVR <==> vrSupported && !arSupported
    ensures m == Inline <==> !vrSupported
    ensures ModeName(m) == "immersive-ar" <==> vrSupported && arSupported
    ensures ModeName(m) == "immersive-vr" <==> vrSupported && !arSupported
    ensures ModeName(m) == "inline" <==> !vrSupported
  {
    if vrSupported then (if arSupported then ImmersiveAR else ImmersiveVR) else Inline
  }

  const EnterARCaption: string := "Entrar a modo AR"
  const EnterVRCaption: string := "Entrar a modo VR"
  const UnsupportedCaption: string := "Experiencia XR no compatible"

  /** The full-screen button: its caption, whether its handlers are
      attached, and the session mode its click requests. */
  datatype Button = Button(caption: string, wired: bool, mode: SessionMode)

  /** The button as created: wired only when both modes are supported, and
      otherwise labelled as unsupported. */
  function MakeButton(vrSupported: bool, arSupported: bool): (b: Button)
    ensures b.wired <==> vrSupported && arSupported
    ensures !b.wired ==> b.caption == UnsupportedCaption
    ensures b.wired ==> b.caption == EnterARCaption
    ensures b.mode == ChooseMode(vrSupported, arSupported)
  {
    var mode := ChooseMode(vrSupported, arSupported);
    if !arSupported || !vrSupported then Button(UnsupportedCaption, false, mode)
    else Button(EnterARCaption, true, mode)
  }

  /** A wired button always requests an immersive AR session: the VR mode is
      chosen only when the button is left unwired. */
  lemma WiredButtonUsesAR(vrSupported: bool, arSupported: bool)
    ensures MakeButton(vrSupported, arSupported).wired ==>
      MakeButton(vrSupported, arSupported).mode == ImmersiveAR
    ensures ChooseMode(vrSupported, arSupported) == ImmersiveVR ==>
      !MakeButton(vrSupported, arSupported).wired
  {
  }

  /** The session states the engine reports. */
  datatype XRState = NotInXR | EnteringXR | InXR | ExitingXR

  /** The ground mesh's visibility and the skybox's `isVisible` flag; either
      mesh may be absent. */
  datatype Environment = Environment(ground: Option<real>, skybox: Option<bool>)

  /** The meshes the session uses: when the button is wired, a missing ground
      or skybox is taken from the engine's default environment; a given one is
      always kept. */
  function ResolveEnvironment(vrSupported: bool, arSupported: bool, given: Environment,
                              defaults: Environment): (env: Environment)
    requires defaults.ground.Some? && defaults.skybox.Some?
    ensures !(vrSupported && arSupported) ==> env == given
    ensures vrSupported && arSupported ==> env.ground.Some? && env.skybox.Some?
    ensures given.ground.Some? ==> env.ground == given.ground
    ensures given.skybox.Some? ==> env.skybox == given.skybox
  {
    if !arSupported || !vrSupported then given
    else if given.ground.None? || given.skybox.None? then
      Environment(if given.ground.None? then defaults.ground else given.ground,
                  if given.skybox.None? then defaults.skybox else given.skybox)
    else given
  }

  /** The state-change observer. With AR supported, entering XR hides the
      ground (visibility 0) and the skybox, and leaving XR shows them
      (visibility 1); every other state, and every state without AR support,
      leaves them as they are. Absent meshes stay absent. */
  function OnStateChanged(arSupported: bool, state: XRState, env: Environment): (r: Environment)
    ensures r.ground.Some? <==> env.ground.Some?
    ensures r.skybox.Some? <==> env.skybox.Some?
    ensures arSupported && state == EnteringXR ==>
      (r.ground.Some? ==> r.ground.value == 0.0) && (r.skybox.Some? ==> !r.skybox.value)
    ensures arSupported && state == NotInXR ==>
      (r.ground.Some? ==> r.ground.value == 1.0) && (r.skybox.Some? ==> r.skybox.value)
    ensures !arSupported || state == InXR || state == ExitingXR ==> r == env
  {
    if !arSupported then env
    else
      match state
      case EnteringXR =>
        Environment(if env.ground.Some? then Some(0.0) else None,
                    if env.skybox.Some? then Some(false) else None)
      case NotInXR =>
        Environment(if env.ground.Some? then Some(1.0) else None,
                    if env.skybox.Some? then Some(true) else None)
      case _ => env
  }

  /** Entering and then leaving a session leaves both meshes shown, whatever
      their visibility was before. */
  lemma EnterThenLeaveShows(env: Environment)
    requires env.ground.Some? && env.skybox.Some?
    ensures var r := OnStateChanged(true, NotInXR, OnStateChanged(true, EnteringXR, env));
            r == Environment(Some(1.0), Some(true))
  {
  }

  /** What a click asks of the engine. */
  datatype Request = Enter(mode: SessionMode, referenceSpace: string) | Exit | NoRequest

  /** Clicking the button in the reported session state. An unwired button
      does nothing. A wired one requests entry only from NotInXR (and then
      offers VR), exit only from InXR (and then offers AR again), and nothing
      while a transition is under way. */
  function Click(b: Button, state: XRState): (r: (Request, Button))
    ensures !b.wired ==> r == (NoRequest, b)
    ensures r.0.Enter? <==> b.wired && state == NotInXR
    ensures r.0.Exit? <==> b.wired && state == InXR
    ensures r.0.Enter? ==> r.0.mode == b.mode && r.0.referenceSpace == ReferenceSpace
    ensures r.0.Enter? ==> r.1.caption == EnterVRCaption
    ensures r.0.Exit? ==> r.1.caption == EnterARCaption
    ensures r.0.NoRequest? ==> r.1 == b
    ensures r.1.wired == b.wired && r.1.mode == b.mode
  {
    if !b.wired then (NoRequest, b)
    else if state == NotInXR then (Enter(b.mode, ReferenceSpace), b.(caption := EnterVRCaption))
    else if state == InXR then (Exit, b.(caption := EnterARCaption))
    else (NoRequest, b)
  }

  /** A full cycle: a click outside XR requests AR entry, a click once in XR
      requests exit, and the button is back to its first caption. */
  lemma ClickCycle(vrSupported: bool, arSupported: bool)
    requires vrSupported && arSupported
    ensures var b := MakeButton(vrSupported, arSupported);
            var first := Click(b, NotInXR);
            var second := Click(first.1, InXR);
            && first.0 == Enter(ImmersiveAR, ReferenceSpace)
            && second.0 == Exit
            && second.1 == b
  {
  }

}
