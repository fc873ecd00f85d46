/**
 * The termination reason carried by an `Exit` event and stored in the
 * application's exit flag. Its Rust module (core/runner/exit_handlers) is not
 * part of this model; the two variants and the `i32` code are those that the
 * application's exit check matches on and hands to `std::process::exit`.
 */
module ExitHandlers {

  /** Rust's `i32`: the type of a process exit code. */
  newtype i32 = x: int | -0x8000_0000 <= x < 0x8000_0000

  datatype ExitReason = Normal | Error(code: i32)

  /** The status `run` passes to `exit` for a reason: 0 for `NORMAL`, the carried code for `ERROR`. */
  function ExitCode(reason: ExitReason): i32
  {
    match reason
    case Normal => 0
    case Error(c) => c
  }
}
