/** What the WP-CLI harness contributes to every generator: the `format` flag
    and the fatal `WP_CLI::error` exit. */
module Cli {
  import opened Php

  /** How a finished command reports: a progress bar, one line of the collected
      ids, or nothing at all (any other `format` value). */
  datatype Output = ProgressBar | IdLine | NoOutput

  /** A command either finishes with its collected ids, stops with the
      message given to `WP_CLI::error` before creating anything, or dies with
      a PHP fatal error and no message: when it calls `$notify->finish()`
      while `$notify` is still `false` (no progress bar was ever made), or
      when it calls a method of a class that does not exist. */
  datatype Outcome<+T> = Done(value: T) | Fatal(message: string) | Crashed

  /** `get_flag_value($assoc_args, 'format', 'progress')`. */
  function FormatOf(format: Option<string>): string {
    OrDefault(format, "progress")
  }

  /** `if ('progress' === $format) ... elseif ('ids' === $format) ...`. */
  function OutputOf(format: string): Output {
    if format == "progress" then ProgressBar
    else if format == "ids" then IdLine
    else NoOutput
  }

  /** With `format` absent a progress bar is shown; the id line is printed
      exactly when `format` is "ids". */
  lemma FormatRule(format: Option<string>)
    ensures format.None? ==> OutputOf(FormatOf(format)) == ProgressBar
    ensures OutputOf(FormatOf(format)) == IdLine <==> format == Some("ids")
  {
  }
}
