/**
 * The child-process abstraction both runners use. A child process is not run:
 * its behaviour is an oracle value, and the runner's decisions depend only on it.
 */
module Process {
  import opened Wrappers
  import opened Strings

  /** One unsigned 8-bit value, as held in a QByteArray. */
  newtype byte = x: int | 0 <= x < 256

  /** A task of the command pipeline: the program path and its argument list. */
  datatype Command = Command(program: string, args: seq<string>)

  /** One OutputReady signal: a text line from the launcher, or raw bytes from a child. */
  datatype OutputEvent = Text(text: string) | Data(bytes: seq<byte>)

  /**
   * How a child of the command pipeline ends: a normal exit with its exit code,
   * or an abnormal one (crash or kill). `output` holds the chunks readAll()
   * returned on the polls that found output waiting, in order.
   */
  datatype Outcome = Normal(code: int, output: seq<seq<byte>>) | Abnormal(output: seq<seq<byte>>)

  /** The line emitted before a command starts: program, a blank, the arguments joined by blanks, a newline. */
  function InvocationLine(c: Command): string {
    c.program + " " + Join(c.args, ' ') + "\n"
  }

  /**
   * The outcomes a runner observes when the poll loop of command `killedAt`
   * saw the cancel flag while that child was still running: the kill makes the
   * exit abnormal; the output read before the kill is kept.
   */
  function Observed(outcomes: seq<Outcome>, killedAt: Option<nat>): (r: seq<Outcome>)
    ensures |r| == |outcomes|
    ensures forall i :: 0 <= i < |r| && killedAt != Some(i) ==> r[i] == outcomes[i]
    ensures forall i :: 0 <= i < |r| && killedAt == Some(i) ==> r[i] == Abnormal(outcomes[i].output)
  {
    seq(|outcomes|, i requires 0 <= i < |outcomes| =>
      if killedAt == Some(i) then Abnormal(outcomes[i].output) else outcomes[i])
  }
}
