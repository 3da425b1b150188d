/** The exceptions raised by the readout code, as values. */
module Outcomes {

  /** Every fault the modelled code can raise. The Python source raises a
      `ValueError` (or an `IndexError`/`KeyError`) with a message; each
      message becomes one constructor here. */
  datatype Fault =
    | ChannelOutOfRange          // a channel outside 1 to 6
    | ReadingCountNotInt         // a reading count that is not an int
    | ModeInvalid                // a mode other than r or a
    | SelectorInvalid            // a selector that is no list and no known letter
    | NoData                     // the board answered no line at all
    | NotANumber(text: string)   // a cleaned line that float conversion refuses
    | SpeedInvalid               // a speed other than f, fast, s or slow
    | NoMatchingPort             // no listed port matches
    | MultipleMatchingPorts      // more than one listed port matches
    | NoLogFiles                 // max() of an empty list
    | PathWithoutDigits(path: string)  // el[0] on an empty findall result
    | NoLabel(key: string)       // names_dict[str(channel)] raising KeyError

  datatype Result<+T> = Ok(value: T) | Err(fault: Fault)

  datatype Option<+T> = None | Some(value: T)
}
