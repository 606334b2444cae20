/** Status codes returned by dispatched tasks (the SC_* codes of the Kinen core and the
    STAT_* codes of the TinyG controller share their meaning for the values used here). */
module Status {

  datatype Stat =
    | Ok                          // SC_OK / STAT_OK
    | Noop                        // SC_NOOP / STAT_NOOP: the task had nothing to do
    | Eagain                      // SC_EAGAIN / STAT_EAGAIN: not finished, block the rest of the pass
    | Eof                         // STAT_EOF: end of a file input device
    | ControllerAssertionFailure  // STAT_CONTROLLER_ASSERTION_FAILURE
    | LimitSwitchHit              // STAT_LIMIT_SWITCH_HIT
    | OtherError(code: int)       // any other error code returned by a collaborator

}
