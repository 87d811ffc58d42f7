module RunClock {
  /** remaining_model_seconds (workflows/run_control.py), or a timed wait: open, closed, or the run was cancelled. */
  datatype Clock = Open | Closed | Cancelled
}
