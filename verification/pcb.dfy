/** The footprint and pad data the converters read through the KiCad
    scripting API, as plain records. Coordinates and sizes are already in
    millimetres: the internal-unit conversion belongs to KiCad. */
module Pcb {

  /** The two copper layers a footprint can sit on (`F_Cu`, `B_Cu`). */
  datatype Layer = FrontCopper | BackCopper

  /** KiCad's `PAD_SHAPE` values. */
  datatype PadShape = Circle | Rect | Oval | Trapezoid | RoundRect | ChamferedRect | Custom

  /** A pad: its name, whether it is an SMD pad, whether it is on a copper
      layer, its shape, its offset from the footprint position and its size. */
  datatype Pad = Pad(
    name: string,
    smd: bool,
    onCopper: bool,
    shape: PadShape,
    offsetX: real,
    offsetY: real,
    sizeX: real,
    sizeY: real)

  /** A footprint on the board. `libItemName` is the library footprint name,
      `typeName` what KiCad reports as its type (it contains `SMD` for
      surface-mount footprints), `orientation` its rotation in degrees. */
  datatype Footprint = Footprint(
    libItemName: string,
    value: string,
    reference: string,
    typeName: string,
    layer: Layer,
    dnp: bool,
    x: real,
    y: real,
    orientation: real,
    pads: seq<Pad>)
}
