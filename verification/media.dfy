/** The media composer (`createVideo`) and its controls strip
    (`createControls`): the controls appear only when the video has loaded,
    the play button toggles between two configurations, and "Omitir" (skip)
    resumes playback and removes the video and the strip. */
module Media {

  import opened Wrappers
  import opened Geometry
  import opened SceneGraph
  import opened Linker
  import opened Windows

  /** The state of the video element the texture plays. */
  datatype Playback = Playback(paused: bool, muted: bool)

  /** The play button's label, background and text colour. */
  datatype Look = Look(caption: string, background: string, color: string)

  /** The look while paused (offering to play) and while playing (offering to pause). */
  const PlayLook: Look := Look("Reproducir", "green", "white")
  const PauseLook: Look := Look("Pausar", "yellow", "black")

  /** The controls strip and the play button's current look. */
  datatype Controls = Controls(strip: SurfaceId, look: Look)

  /** A video panel: its surface and pixel size, the video's playback state,
      and the bar and controls created when the video finishes loading. */
  datatype VideoPanel = VideoPanel(
    surface: SurfaceId,
    heightPx: real,
    widthPx: real,
    playback: Playback,
    bar: Option<SurfaceId>,
    controls: Option<Controls>)

  /** The surface of the panel exists in the scene. */
  predicate PanelWf(s: Scene, v: VideoPanel)
  {
    Valid(s) && v.surface in s.size
  }

  /** `createVideo`: one new live surface; the video starts paused and muted
      (no autoplay) and has neither bar nor controls yet. */
  function CreateVideo(s: Scene, heightPx: real, widthPx: real): (r: (Scene, VideoPanel))
    requires Valid(s)
    ensures PanelWf(r.0, r.1) && Extends(s, r.0)
    ensures r.1.surface !in s.size && r.0.live == s.live + {r.1.surface}
    ensures r.1.playback == Playback(true, true)
    ensures r.1.bar.None? && r.1.controls.None?
  {
    var p := CreatePlane(s, PanelSize(widthPx, heightPx));
    (p.0, VideoPanel(p.1, heightPx, widthPx, Playback(true, true), None, None))
  }

  /** The video's load event: a bar linked on top of the video and a controls
      strip, a quarter of the video's height, linked below it, showing the
      play look. Playback is untouched. */
  function OnLoad(s: Scene, v: VideoPanel): (r: (Scene, VideoPanel))
    requires PanelWf(s, v)
    ensures PanelWf(r.0, r.1) && Extends(s, r.0) && r.1.surface == v.surface
    ensures r.1.playback == v.playback
    ensures r.1.bar.Some? && r.1.controls.Some?
    ensures var bar := r.1.bar.value; var strip := r.1.controls.value.strip;
      && bar !in s.size && strip !in s.size && bar != strip
      && r.0.live == s.live + {bar, strip}
      && SitsOnTop(r.0, bar, v.surface)
      && strip in r.0.parent && r.0.parent[strip] == v.surface
      && strip in r.0.position && r.0.position[strip].Some? && AlongY(r.0.position[strip].value)
      && r.0.position[strip].value.y + BoundingMax(r.0.size[strip]).y == -BoundingMax(r.0.size[v.surface]).y
      && 4.0 * r.0.size[strip].height == PanelSize(v.widthPx, v.heightPx).height
    ensures r.1.controls.value.look == PlayLook
  {
    var b := CreateBar(s, v.widthPx, v.heightPx);
    var c := CreatePlane(b.0, BarSize(v.widthPx, v.heightPx));
    var s1 := Link(c.0, v.surface, b.1, Some(LinkedUp));
    var s2 := Link(s1, v.surface, c.1, Some(LinkedDown));
    (s2, v.(bar := Some(b.1), controls := Some(Controls(c.1, PlayLook))))
  }

  /** The two configurations the controls can show: paused, muted and offering
      to play, or playing, unmuted and offering to pause. */
  predicate Coherent(v: VideoPanel)
  {
    && v.controls.Some?
    && ((v.playback == Playback(true, true) && v.controls.value.look == PlayLook)
     || (v.playback == Playback(false, false) && v.controls.value.look == PauseLook))
  }

  /** Clicking the play button. Before loading there is no button and nothing
      happens; afterwards a paused video plays unmuted and a playing one
      pauses muted, and the result is always one of the two coherent
      configurations, whatever the state before. */
  function TogglePlay(v: VideoPanel): (r: VideoPanel)
    ensures v.controls.None? ==> r == v
    ensures v.controls.Some? ==> Coherent(r)
    ensures v.controls.Some? ==> r.playback.paused == !v.playback.paused
    ensures r.surface == v.surface && r.bar == v.bar
    ensures r.controls.Some? <==> v.controls.Some?
    ensures v.controls.Some? ==> r.controls.value.strip == v.controls.value.strip
  {
    match v.controls
    case None => v
    case Some(c) =>
      if v.playback.paused then
        v.(playback := Playback(false, false), controls := Some(c.(look := PauseLook)))
      else
        v.(playback := Playback(true, true), controls := Some(c.(look := PlayLook)))
  }

  /** Two clicks restore a coherent configuration. */
  lemma ToggleTwice(v: VideoPanel)
    requires Coherent(v)
    ensures TogglePlay(TogglePlay(v)) == v
    ensures TogglePlay(v) != v
  {
  }

  /** The panel after `n` clicks of the play button. */
  function ToggleTimes(v: VideoPanel, n: nat): VideoPanel
    decreases n
  {
    if n == 0 then v else TogglePlay(ToggleTimes(v, n - 1))
  }

  /** From the configuration right after loading, an even number of clicks
      shows the play look with the video paused and muted, an odd number the
      pause look with the video playing unmuted. */
  lemma {:induction false} ToggleParity(v: VideoPanel, n: nat)
    requires Coherent(v) && v.controls.value.look == PlayLook
    ensures Coherent(ToggleTimes(v, n))
    ensures ToggleTimes(v, n).controls.value.look == PlayLook <==> n % 2 == 0
    ensures ToggleTimes(v, n).playback.paused <==> n % 2 == 0
    decreases n
  {
    if n > 0 {
      ToggleParity(v, n - 1);
    }
  }

  /** The video reaches its end (it does not loop) and the element pauses
      itself. No handler runs, so the button keeps its look and the mute
      state is untouched. */
  function PlaybackEnded(v: VideoPanel): (r: VideoPanel)
    ensures r.playback.paused && r.playback.muted == v.playback.muted
    ensures r.controls == v.controls && r.bar == v.bar && r.surface == v.surface
  {
    v.(playback := v.playback.(paused := true))
  }

  /** When a playing video ends, the controls leave the two configurations
      (paused, unmuted, still showing "Pausar"); the next click plays it again
      and shows "Pausar", giving back the configuration before the end. */
  lemma EndedThenClick(v: VideoPanel)
    requires Coherent(v) && !v.playback.paused
    ensures !Coherent(PlaybackEnded(v))
    ensures PlaybackEnded(v).controls.value.look == PauseLook
    ensures TogglePlay(PlaybackEnded(v)) == v
  {
  }

  /** Clicking "Omitir". Before loading there is no button and nothing
      happens; afterwards the video plays unmuted and exactly the video surface
      and the controls strip are disposed. */
  function Skip(s: Scene, v: VideoPanel): (r: (Scene, VideoPanel))
    ensures v.controls.None? ==> r == (s, v)
    ensures v.controls.Some? ==> r.1.playback == Playback(false, false)
    ensures v.controls.Some? ==> forall id :: id in r.0.live <==>
      id in s.live && id != v.surface && id != v.controls.value.strip
    ensures r.0.size == s.size && r.0.parent == s.parent && r.0.position == s.position
    ensures r.1.controls == v.controls && r.1.bar == v.bar && r.1.surface == v.surface
  {
    match v.controls
    case None => (s, v)
    case Some(c) =>
      (Dispose(Dispose(s, v.surface), c.strip), v.(playback := Playback(false, false)))
  }

  /** Loading then skipping: of the three surfaces the panel has, the video
      and the strip are disposed and the title bar is not; every other
      surface keeps its liveness. */
  lemma LoadThenSkip(s: Scene, heightPx: real, widthPx: real)
    requires Valid(s)
    ensures var c := CreateVideo(s, heightPx, widthPx);
            var loaded := OnLoad(c.0, c.1);
            var skipped := Skip(loaded.0, loaded.1);
            && skipped.0.live == s.live + {loaded.1.bar.value}
            && skipped.1.playback == Playback(false, false)
  {
    var c := CreateVideo(s, heightPx, widthPx);
    var loaded := OnLoad(c.0, c.1);
    var skipped := Skip(loaded.0, loaded.1);
    assert c.1.surface !in s.live && loaded.1.controls.value.strip !in s.live;
    assert loaded.1.controls.value.strip != c.1.surface;
    assert forall id :: id in skipped.0.live <==> id in s.live + {loaded.1.bar.value};
  }

  /** Loading then clicking play starts the video unmuted and shows "Pausar". */
  lemma LoadThenPlay(s: Scene, heightPx: real, widthPx: real)
    requires Valid(s)
    ensures var c := CreateVideo(s, heightPx, widthPx);
            var loaded := OnLoad(c.0, c.1);
            var played := TogglePlay(loaded.1);
            && Coherent(loaded.1)
            && played.playback == Playback(false, false)
            && played.controls.value.look.caption == "Pausar"
  {
  }

}
