/** Option and Result values used for the engine's "null" returns and its thrown errors. */
module Wrappers {

  datatype Option<+T> = None | Some(value: T) {
    function GetOr(default: T): T {
      match this
      case Some(v) => v
      case None => default
    }
  }

  /** Every way the engine or its calendar provider can fail. */
  datatype Failure =
    | NoCalendarRecord        // the provider has no lunar or solar record for a date
    | ProviderUnavailable     // transport or API-key failure inside the provider
    | DayPillarDecode(token: string)       // the day-designation token holds no stem/branch pair
    | UnknownDayGlyph(gan: char, ji: char) // the parenthetical pair is not in the stem/branch tables

  datatype Result<+T> = Ok(value: T) | Err(error: Failure) {
    predicate IsFailure() {
      Err?
    }

    function PropagateFailure<U>(): Result<U>
      requires Err?
    {
      Err(error)
    }

    function Extract(): T
      requires Ok?
    {
      value
    }
  }
}
