/** The part of the `chrono` crate the authentication evaluator relies on. */
module Time {

  /** A `DateTime<Utc>`, as whole seconds since the Unix epoch. */
  type DateTime = int

  /** chrono's `LocalResult`: converting a timestamp gives no instant
      (chrono's `LocalResult::None`), one instant, or two candidate instants
      of which chrono lists the earlier one first. */
  datatype LocalResult =
    | NoInstant
    | Single(instant: DateTime)
    | Ambiguous(earliest: DateTime, latest: DateTime)
  {
    /** The instants the conversion offers. */
    function Candidates(): set<DateTime>
    {
      match this
      case NoInstant => {}
      case Single(t) => {t}
      case Ambiguous(a, b) => {a, b}
    }
  }
}
