/**
 * What the drawing reader hands to the filter: the current entity attributes, layer
 * declarations, and the geometry of the four entity kinds the filter extracts.
 */
module Entities {
  import opened Layers

  /**
   * DL_Attributes. Only the layer is inspected; the other fields stand for the
   * attributes that are passed through untouched.
   */
  datatype Attributes = Attributes(layer: string, color: int, width: int, linetype: string)

  /** DL_LayerData: a layer declaration. */
  datatype LayerData = LayerData(name: string, flags: int)

  /** Geometry payloads; the filter never looks inside them. */
  datatype PointData = PointData(x: real, y: real, z: real)
  datatype LineData = LineData(x1: real, y1: real, z1: real, x2: real, y2: real, z2: real)
  datatype ArcData = ArcData(cx: real, cy: real, cz: real, radius: real, angle1: real, angle2: real)
  datatype CircleData = CircleData(cx: real, cy: real, cz: real, radius: real)

  datatype Entity =
    | Point(point: PointData)
    | Line(line: LineData)
    | Arc(arc: ArcData)
    | Circle(circle: CircleData)

  /**
   * The attribute rewrite of addCommon: the extracted copy lands on the default
   * layer, and putting the original layer back gives the original attributes.
   */
  function ToDefaultLayer(a: Attributes): (r: Attributes)
    ensures r.layer == DefaultLayer
    ensures r.(layer := a.layer) == a
  {
    a.(layer := DefaultLayer)
  }

  /**
   * Two attribute records rewrite to the same copy exactly when they agree on every
   * field but the layer: the rewrite loses the layer and nothing else.
   */
  lemma ToDefaultLayerForgetsOnlyLayer(a: Attributes, b: Attributes)
    ensures ToDefaultLayer(a) == ToDefaultLayer(b) <==> a.(layer := b.layer) == b
  {
    if ToDefaultLayer(a) == ToDefaultLayer(b) {
      assert ToDefaultLayer(a).(layer := b.layer) == b;
    }
  }

  /** Rewriting twice is rewriting once, and attributes already on the default layer are left as they are. */
  lemma ToDefaultLayerIdempotent(a: Attributes)
    ensures ToDefaultLayer(ToDefaultLayer(a)) == ToDefaultLayer(a)
    ensures a.layer == DefaultLayer ==> ToDefaultLayer(a) == a
  {
  }
}
