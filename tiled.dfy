/** Objects of the Tiled map layers that the scene reads spawn data from. */
module Tiled {
  import opened Wrappers

  /** A custom property value; the model keeps numbers (as integers) and text. */
  datatype Value = Num(n: int) | Text(s: string)

  datatype Property = Property(name: string, value: Value)

  datatype TiledObject = TiledObject(
    name: string,
    x: Option<int>,
    y: Option<int>,
    properties: Option<seq<Property>>)
}
