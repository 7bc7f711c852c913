/** Vectors and plane sizes in scene units.

    Every panel of index.js is a plane whose size is given in pixels and
    scaled by 0.01; a bar (title bar or controls strip) is a quarter of the
    height of the panel it decorates. */
module Geometry {

  datatype Vec3 = Vec3(x: real, y: real, z: real)

  const Origin: Vec3 := Vec3(0.0, 0.0, 0.0)

  /** Width and height of a plane, in scene units. */
  datatype Size = Size(width: real, height: real)

  /** Scene units per pixel, the `* 0.01` applied to every plane. */
  const UnitsPerPixel: real := 0.01

  /** Maximum corner of the local bounding box of a plane centred on its
      origin in the XY plane: half its width, half its height, depth zero. */
  function BoundingMax(sz: Size): (m: Vec3)
    ensures m.x + m.x == sz.width && m.y + m.y == sz.height && m.z == 0.0
  {
    Vec3(sz.width / 2.0, sz.height / 2.0, 0.0)
  }

  /** The plane of a window, quiz or video panel. */
  function PanelSize(widthPx: real, heightPx: real): Size
  {
    Size(widthPx * UnitsPerPixel, heightPx * UnitsPerPixel)
  }

  /** The plane of a title bar or a controls strip: as wide as the panel it
      decorates and a quarter of its height. */
  function BarSize(widthPx: real, heightPx: real): (sz: Size)
    ensures sz.width == PanelSize(widthPx, heightPx).width
    ensures 4.0 * sz.height == PanelSize(widthPx, heightPx).height
  {
    Size(widthPx * UnitsPerPixel, heightPx * UnitsPerPixel / 4.0)
  }

}
