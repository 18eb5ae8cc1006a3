/** Failure values shared by the whole model. Each constructor stands for one
    exception the instrument-control code raises, and is named after what
    went wrong rather than after the Python exception class. */
module Outcomes {

  datatype Error =
    | NoDeviceFound                      // ValueError "No MARLIN detected."
    | ConnectionTimeout                  // ValueError "MARLIN connection timeout."
    | AmbiguousDevice                    // ValueError "More than one MARLIN detected."
    | UnknownReagent(name: string)       // KeyError in the name -> routing table
    | UnknownRouting(routing: seq<int>)  // KeyError in the routing -> name table
    | UnknownValve(valve: int)           // KeyError in the valve-name table
    | HandshakeFailed                    // Exception "Handshake failed."
    | MissingWaitFor                     // AttributeError: the scheduler has no wait_for member
    | MissingFirstPoint                  // IndexError: grid_coords[0] of an empty grid
    | MissingFirstConfig                 // IndexError: config_list[0] of an empty channel list
    | UndefinedConfigs(message: string)  // ValueError listing the undefined configs
    | UnknownFiletype                    // ValueError "Filetype not recognized"

  /** The errors a call on the fluidics handler can raise. */
  predicate DeviceFault(e: Error) {
    e.UnknownReagent? || e.UnknownRouting? || e.UnknownValve? || e.HandshakeFailed?
  }

  /** The outcome of an operation that either returns normally or raises. */
  datatype Outcome = Pass | Fail(error: Error)

  /** The outcome of an operation that returns a value or raises. */
  datatype Result<T> = Success(value: T) | Failure(error: Error)

  datatype Option<T> = None | Some(value: T)
}
