// What the flow programs hand to the operating system, seen symbolically:
// each program that is forked and executed (its argument vector and where
// its standard input, output and error streams point), the pipes created on
// the way, and how the parent reports a child's status once it has waited
// for it.  Descriptors are names for the objects they point at, not numbers.

module Process {
  import opened Wrappers

  /** What a standard stream of a launched program is connected to. */
  datatype Fd =
    | Stdin
    | Stdout
    | Stderr
    | PipeRead(pipe: nat)
    | PipeWrite(pipe: nat)
    | FileRead(path: string)
    | FileWrite(path: string)

  /** The standard streams of the process that is running an action. */
  datatype Streams = Streams(input: Fd, output: Fd, errors: Fd)

  /** The streams `main` starts with. */
  const Terminal := Streams(Stdin, Stdout, Stderr)

  /**
   * One `execvp` in a forked child: the argument vector, its three streams,
   * and the flag the waiting parent consults before reporting a failure.
   */
  datatype Launch = Launch(argv: seq<string>, input: Fd, output: Fd, errors: Fd, quiet: bool)

  /** The program the capture and file actions run to copy a stream. */
  const CatArgv := ["cat"]

  /**
   * Why a process that runs an action stops with `exit(EXIT_FAILURE)`: an
   * unknown action name (also an unknown concatenation part), a pipe between
   * two file nodes; or the model's recursion bound.
   */
  datatype Fault = UnknownAction(name: string) | BothEndsFiles(pipe: string) | OutOfFuel

  /**
   * The programs a run forks, in the order it forks them, the number of pipes
   * created so far (pipe `k` is the `k`-th one created), and whether the
   * process running the action stopped on a fault.
   */
  datatype Plan = Plan(launches: seq<Launch>, pipes: nat, fault: Option<Fault>)

  /**
   * A fault in a forked child ends that child only, so the parent carries
   * on; running out of fuel is not a behaviour of the program and is kept.
   */
  function Contained(f: Option<Fault>): (r: Option<Fault>)
    ensures r.Some? <==> f == Some(OutOfFuel)
  {
    if f == Some(OutOfFuel) then f else None
  }

  /**
   * A forked child followed by work in the parent itself: the child's fault
   * is contained, the parent's is not.
   */
  function ChildThenParent(child: Option<Fault>, parent: Option<Fault>): (r: Option<Fault>)
    ensures child == Some(OutOfFuel) ==> r == child
    ensures child != Some(OutOfFuel) ==> r == parent
  {
    if child == Some(OutOfFuel) then child else parent
  }

  /** Two forked children: the parent stops only if the model's bound was hit in either. */
  function ContainedBoth(f: Option<Fault>, g: Option<Fault>): (r: Option<Fault>)
    ensures r.Some? <==> (f == Some(OutOfFuel) || g == Some(OutOfFuel))
  {
    if f == Some(OutOfFuel) || g == Some(OutOfFuel) then Some(OutOfFuel) else None
  }

  // ---------------------------------------------------------------
  // Reporting a child's status
  // ---------------------------------------------------------------

  /** What `waitpid` leaves in `status`: a normal exit with its code, or the terminating signal. */
  datatype Status = Exited(code: int) | Signaled(signal: nat)

  /** SIGPIPE on Linux. */
  const SIGPIPE: nat := 13

  /** The message the parent writes after waiting for a child. */
  datatype Report = ExitError(code: int) | KilledBy(signal: nat)

  /**
   * src/mix4.cpp `execute_command`: a non-zero exit code, or a signal other
   * than SIGPIPE, is reported unless messages are suppressed.
   */
  function ReportMix4(s: Status, quiet: bool): (r: Option<Report>)
    ensures quiet ==> r.None?
    ensures r.Some? ==> r.value == (if s.Exited? then ExitError(s.code) else KilledBy(s.signal))
    ensures r.Some? ==> s != Exited(0) && s != Signaled(SIGPIPE)
  {
    if quiet then None
    else match s
      case Exited(c) => if c != 0 then Some(ExitError(c)) else None
      case Signaled(sig) => if sig != SIGPIPE then Some(KilledBy(sig)) else None
  }

  /** src/mix.cpp and src/mix2.cpp: the same rule with no way to suppress it. */
  function ReportMix(s: Status): (r: Option<Report>)
  {
    ReportMix4(s, false)
  }

  /**
   * src/flowc.c `execute_node`: only a non-zero exit code is reported, and only
   * when the node's standard error is not redirected; a signal never is.
   */
  function ReportFlowc(s: Status, redirected: bool): (r: Option<Report>)
    ensures r.Some? ==> s.Exited? && r.value == ExitError(s.code)
  {
    if !redirected && s.Exited? && s.code != 0 then Some(ExitError(s.code)) else None
  }

  /** The mix family reports exactly the statuses other than a clean exit and SIGPIPE. */
  lemma MixReportsAllButSigpipe(s: Status)
    ensures ReportMix(s).None? <==> (s == Exited(0) || s == Signaled(SIGPIPE))
  {
  }

  /** Where the programs differ: a signal is reported by the mix family but never by src/flowc.c. */
  lemma SignalsDiffer(sig: nat)
    requires sig != SIGPIPE
    ensures ReportMix(Signaled(sig)) == Some(KilledBy(sig))
    ensures ReportFlowc(Signaled(sig), false).None?
  {
  }

  /** A failing exit is reported by all of them when nothing is suppressed. */
  lemma ExitErrorsAgree(code: int)
    requires code != 0
    ensures ReportMix(Exited(code)) == Some(ExitError(code))
    ensures ReportMix4(Exited(code), false) == Some(ExitError(code))
    ensures ReportFlowc(Exited(code), false) == Some(ExitError(code))
  {
  }
}
