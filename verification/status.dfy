/**
 * The exit status of `fnc` after it hands a command to `system`: `fn_run` of
 * tools/fnc.c passes what `system` returns straight to `exit`.
 *
 * `system` returns a wait status, not the child's exit code. In the encoding
 * of Linux and the BSDs, a child that exits normally with code c gives c * 256;
 * a child ended by signal s gives s in the low seven bits. `exit` keeps only
 * the low eight bits of its argument.
 */
module ExitStatus {

  /** The wait status of a child that exited normally with `code`. */
  function NormalExit(code: nat): (w: nat)
    requires code < 256
    ensures w % 256 == 0 && w / 256 == code
  {
    code * 256
  }

  /** The wait status of a child ended by signal `signal`. */
  function Killed(signal: nat): (w: nat)
    requires 0 < signal < 128
    ensures w % 128 == signal
  {
    signal
  }

  /** The status the parent of a process sees after `exit(status)`: the low eight bits. */
  function ExitCode(status: int): (c: nat)
    ensures c < 256
    ensures 0 <= status < 256 ==> c == status
  {
    status % 256
  }

  /** `exit(system(cmd))`, as `fn_run` does it. */
  function RelayAsWritten(w: nat): (c: nat)
    ensures c < 256
  {
    ExitCode(w)
  }

  /** Every exit code of the child comes out as 0: a failing command goes unnoticed. */
  lemma RelayAsWrittenLosesCode(code: nat)
    requires code < 256
    ensures RelayAsWritten(NormalExit(code)) == 0
  {
  }

  /** The launcher's status when `system` returns `w`: the child's exit code, or 128 plus the signal. */
  function Relay(w: nat): (c: nat)
    ensures c < 256
  {
    if w % 128 == 0 then ExitCode(w / 256) else 128 + w % 128
  }

  /** The corrected relay hands on the child's exit code unchanged, and reports a signal as 128 plus its number. */
  lemma RelayKeepsCode(code: nat, signal: nat)
    requires code < 256 && 0 < signal < 128
    ensures Relay(NormalExit(code)) == code
    ensures Relay(Killed(signal)) == 128 + signal
    ensures ExitCode(Relay(NormalExit(code))) == code
  {
    var w := NormalExit(code);
    assert w % 128 == 0 by {
      assert w == 128 * (2 * code);
    }
  }
}
