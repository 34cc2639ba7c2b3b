/** The error kinds a project read or write can end with. */
module Errors {

  /**
   * `ProjectReadError`, plus `Panic`: the source has no such variant; it stands
   * for the places where the source panics instead of returning an error
   * (`unwrap` on a failed integer conversion, `panic!`, an index or capacity
   * overflow), so that the model can say where that happens.
   */
  datatype ReadError =
    | AntiOpreation
    | Data
    | FmtNewer
    | FmtUnknown
    | InvalidTag
    | InvalidData
    | OggvReadError
    | OggvSupportDisabled
    | OldUnsupported
    | OvertonePointOutOfRange(point: int)
    | Panic

  /** `ProjectWriteError`, plus `Panic` as above. */
  datatype WriteError =
    | UnsupportedFmt
    | CoordWavePointOutOfRange
    | Panic
}
