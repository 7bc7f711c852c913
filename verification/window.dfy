/** The bar builder (`createBar`) and the window composer (`createWindow`). */
module Windows {

  import opened Wrappers
  import opened Geometry
  import opened SceneGraph
  import opened Linker

  /** A window: its body surface, its title bar, the strings it shows, and
      whether it carries the "Ok" button that dismisses it. */
  datatype Window = Window(body: SurfaceId, bar: SurfaceId, title: string, text: string, dismissable: bool)

  /** `createBar`: a new live plane, as wide as the panel and a quarter of its
      height. */
  function CreateBar(s: Scene, widthPx: real, heightPx: real): (r: (Scene, SurfaceId))
    requires Valid(s)
    ensures Valid(r.0) && Extends(s, r.0)
    ensures r.1 !in s.size
    ensures r.0.live == s.live + {r.1}
    ensures r.1 in r.0.size && r.0.size[r.1].width == PanelSize(widthPx, heightPx).width
    ensures 4.0 * r.0.size[r.1].height == PanelSize(widthPx, heightPx).height
    ensures r.0.parent == s.parent
  {
    CreatePlane(s, BarSize(widthPx, heightPx))
  }

  /** The bar's lower edge lies on the body's upper edge, horizontally centred. */
  predicate SitsOnTop(s: Scene, bar: SurfaceId, body: SurfaceId)
    requires bar in s.size && body in s.size
  {
    && bar in s.parent && s.parent[bar] == body
    && bar in s.position && s.position[bar].Some?
    && AlongY(s.position[bar].value)
    && s.position[bar].value.y - BoundingMax(s.size[bar]).y == BoundingMax(s.size[body]).y
  }

  /** `createWindow`: two new live surfaces, the bar linked on top of the
      body; the window is dismissable exactly when `showButton` holds; no
      existing surface is touched. */
  function CreateWindow(s: Scene, heightPx: real, widthPx: real, title: string, text: string,
                        showButton: bool): (r: (Scene, Window))
    requires Valid(s)
    ensures Valid(r.0) && Extends(s, r.0)
    ensures r.1.body !in s.size && r.1.bar !in s.size && r.1.body != r.1.bar
    ensures r.0.live == s.live + {r.1.body, r.1.bar}
    ensures r.1.body in r.0.size && r.1.bar in r.0.size
    ensures r.0.size[r.1.body] == PanelSize(widthPx, heightPx)
    ensures SitsOnTop(r.0, r.1.bar, r.1.body)
    ensures r.1.body !in r.0.parent
    ensures r.1.title == title && r.1.text == text
    ensures r.1.dismissable <==> showButton
  {
    var b := CreateBar(s, widthPx, heightPx);
    var p := CreatePlane(b.0, PanelSize(widthPx, heightPx));
    var linked := Link(p.0, p.1, b.1, Some(LinkedUp));
    (linked, Window(p.1, b.1, title, text, showButton))
  }

  /** Pressing "Ok": there is no such action unless the window is
      dismissable; when there is, it disposes the body and the bar and no
      other surface. */
  function Dismiss(s: Scene, w: Window): (r: Option<Scene>)
    ensures r.Some? <==> w.dismissable
    ensures r.Some? ==> forall id :: id in r.value.live <==> id in s.live && id != w.body && id != w.bar
    ensures r.Some? ==> r.value.size == s.size && r.value.parent == s.parent && r.value.position == s.position
  {
    if w.dismissable then Some(Dispose(Dispose(s, w.body), w.bar)) else None
  }

  /** Creating a window with the button and pressing it gives back exactly
      the live surfaces there were before. */
  lemma CreateThenDismiss(s: Scene, heightPx: real, widthPx: real, title: string, text: string)
    requires Valid(s)
    ensures var c := CreateWindow(s, heightPx, widthPx, title, text, true);
            Dismiss(c.0, c.1).Some? && Dismiss(c.0, c.1).value.live == s.live
  {
    var c := CreateWindow(s, heightPx, widthPx, title, text, true);
    var d := Dismiss(c.0, c.1).value;
    assert c.1.body !in s.live && c.1.bar !in s.live;
    assert forall id :: id in d.live <==> id in s.live;
  }

}
