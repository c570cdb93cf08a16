/**
 * The fixed command buffer of tools/fnc.c: every command is formatted with
 * `snprintf` into `STR_BUFFER_SIZE` characters, and the count `snprintf`
 * returns (the length the whole command would have) is then checked.
 */
module Buffers {

  /** The size of the command buffers, terminating NUL included. */
  const STR_BUFFER_SIZE: nat := 2048

  /**
   * What `snprintf` leaves in a buffer of `size` characters: the formatted
   * text cut to `size - 1` characters, the last one being the NUL.
   */
  function Snprintf(s: string, size: nat): (stored: string)
    requires size > 0
    ensures |stored| < size
    ensures stored <= s
    ensures stored == s <==> |s| < size
  {
    if |s| < size then s else s[..size - 1]
  }

  /** The check after each `snprintf`, as written: the count may reach the buffer size. */
  predicate CountCheckAsWritten(count: nat)
  {
    count <= STR_BUFFER_SIZE
  }

  /** The check that keeps the whole command: the count must leave room for the NUL. */
  predicate CountCheck(count: nat)
  {
    count < STR_BUFFER_SIZE
  }

  /** A command of exactly `STR_BUFFER_SIZE` characters passes the check as written and loses its last character. */
  lemma CountCheckAsWrittenTruncates()
    ensures exists s: string :: CountCheckAsWritten(|s|) && Snprintf(s, STR_BUFFER_SIZE) != s
  {
    var s := seq(STR_BUFFER_SIZE, _ => 'x');
    assert |Snprintf(s, STR_BUFFER_SIZE)| < |s|;
  }

  /** The corrected check passes exactly the commands the buffer holds whole. */
  lemma CountCheckKeepsCommand(s: string)
    ensures CountCheck(|s|) <==> Snprintf(s, STR_BUFFER_SIZE) == s
  {
  }
}
