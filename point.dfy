/**
 * Plain value types shared by the voice modules: envelope points, oscillator
 * points and the wave description of a wave voice.
 */
module Point {
  import opened Base

  /** `EnvPt`: an x offset from the previous point and a volume. */
  datatype EnvPt = EnvPt(x: u16, y: u8)

  /** `OsciPt`: an oscillator point. */
  datatype OsciPt = OsciPt(x: u16, y: i16)

  /** `WaveData`: coordinate points with a resolution, or overtone points. */
  datatype WaveData =
    | Coord(points: seq<OsciPt>, resolution: u16)
    | Overtone(points: seq<OsciPt>)
}
