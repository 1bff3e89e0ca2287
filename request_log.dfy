/**
 * The request logger's line shortening: a line longer than 80 characters is
 * cut to its first 79 and ends with a horizontal ellipsis.
 */
module RequestLog {

  const MaxLineLength := 80
  const Ellipsis := '\U{2026}'

  function TruncateLogLine(line: string): (r: string)
    ensures |r| <= MaxLineLength
    ensures |line| <= MaxLineLength ==> r == line
    ensures |line| > MaxLineLength ==>
      |r| == MaxLineLength && r[..MaxLineLength - 1] == line[..MaxLineLength - 1] && r[MaxLineLength - 1] == Ellipsis
  {
    if |line| > MaxLineLength then line[..MaxLineLength - 1] + [Ellipsis] else line
  }

  /** Shortening is idempotent: a logged line is already short enough. */
  lemma TruncateLogLineIdempotent(line: string)
    ensures TruncateLogLine(TruncateLogLine(line)) == TruncateLogLine(line)
  {
  }
}
