/** The two-step confirmation gate in front of kernel builds. Printing the
    warning and exiting the process become the outcome the gate returns. */
module Kernel {

  /** The flag a user must add to confirm a kernel build. */
  const ConfirmFlag: string := "--dangerously-waste-the-users-time"

  /** The exit status of a halted build. */
  const HaltExitCode: int := 1

  /** The simple guard used in match arms: the three values the gate reads. */
  datatype KernelGuard = KernelGuard(requested: bool, confirmed: bool, exampleCmd: string)
  {
    /** Whether the user asked for a kernel build. */
    function KernelRequested(): bool { requested }

    /** Whether the user also passed the confirmation flag. */
    function KernelConfirmed(): bool { confirmed }

    /** The example command shown in the warning. */
    function KernelExampleCmd(): string { exampleCmd }
  }

  function NewKernelGuard(requested: bool, confirmed: bool, exampleCmd: string): (g: KernelGuard)
    ensures g.KernelRequested() == requested
    ensures g.KernelConfirmed() == confirmed
    ensures g.KernelExampleCmd() == exampleCmd
  {
    KernelGuard(requested, confirmed, exampleCmd)
  }

  /** What the gate decides. `NotRequested` and `Confirmed` let the build go
      on (without and with the kernel step); `Halt` stops it after showing
      `message` on standard error, with process exit status `exitCode`. */
  datatype Outcome =
    | NotRequested
    | Confirmed
    | Halt(message: seq<string>, exitCode: int)
  {
    predicate Continues() { !Halt? }
  }

  /** `s` occurs in `t` starting at position `i`. */
  predicate OccursAt(t: string, s: string, i: int) {
    0 <= i && i + |s| <= |t| && t[i..i + |s|] == s
  }

  /** Some line of `lines` contains `s` verbatim. */
  predicate Mentions(lines: seq<string>, s: string) {
    exists k, i :: 0 <= k < |lines| && 0 <= i <= |lines[k]| && OccursAt(lines[k], s, i)
  }

  /** The text of the warning, one line per entry. The frame drawn around it
      and the padding of the example command are rendering only. */
  function Warning(exampleCmd: string): (lines: seq<string>)
    ensures Mentions(lines, exampleCmd)
    ensures Mentions(lines, ConfirmFlag)
  {
    var lines := [
      "",
      "KERNEL BUILD TAKES ~1 HOUR",
      "",
      "To confirm, add: " + ConfirmFlag,
      "",
      "Example:",
      "  " + exampleCmd,
      ""
    ];
    assert OccursAt(lines[6], exampleCmd, 2);
    assert OccursAt(lines[3], ConfirmFlag, |"To confirm, add: "|);
    lines
  }

  /** The gate, over what an implementor's three accessors return: a build
      that was not requested, or was requested and confirmed, continues;
      one that was requested but not confirmed halts with exit status 1
      and a warning that shows the example command and the confirmation
      flag. */
  function RequireKernelConfirmation(requested: bool, confirmed: bool, exampleCmd: string): (o: Outcome)
    ensures o.NotRequested? <==> !requested
    ensures o.Confirmed? <==> requested && confirmed
    ensures o.Halt? <==> requested && !confirmed
    ensures o.Continues() <==> !requested || confirmed
    ensures o.Halt? ==> o.exitCode == HaltExitCode
    ensures o.Halt? ==> Mentions(o.message, exampleCmd) && Mentions(o.message, ConfirmFlag)
  {
    if !requested then NotRequested
    else if confirmed then Confirmed
    else Halt(Warning(exampleCmd), HaltExitCode)
  }

  /** The gate applied to a guard, reading it through its accessors. */
  function Gate(g: KernelGuard): (o: Outcome)
    ensures o.Continues() <==> !g.requested || g.confirmed
    ensures o.Confirmed? <==> g.requested && g.confirmed
    ensures o.Halt? ==> o.exitCode == HaltExitCode && Mentions(o.message, g.exampleCmd)
  {
    RequireKernelConfirmation(g.KernelRequested(), g.KernelConfirmed(), g.KernelExampleCmd())
  }

  /** The decision depends only on the two flags: the example command
      changes the text of the warning and nothing else. */
  lemma DecisionIgnoresExampleCmd(requested: bool, confirmed: bool, cmd1: string, cmd2: string)
    ensures RequireKernelConfirmation(requested, confirmed, cmd1).Halt?
        == RequireKernelConfirmation(requested, confirmed, cmd2).Halt?
    ensures !(requested && !confirmed) ==>
        RequireKernelConfirmation(requested, confirmed, cmd1)
        == RequireKernelConfirmation(requested, confirmed, cmd2)
    ensures requested && !confirmed ==>
        RequireKernelConfirmation(requested, confirmed, cmd1).exitCode
        == RequireKernelConfirmation(requested, confirmed, cmd2).exitCode
  {
  }

  /** A guard built with `NewKernelGuard` is judged by exactly the values it
      was built from. */
  lemma GateOfNewGuard(requested: bool, confirmed: bool, exampleCmd: string)
    ensures Gate(NewKernelGuard(requested, confirmed, exampleCmd))
        == RequireKernelConfirmation(requested, confirmed, exampleCmd)
  {
  }
}
