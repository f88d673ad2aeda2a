# distro-contract, modelled in Dafny

The crate holds the contracts shared by the distribution builders:
- a declarative component vocabulary: build phases, a closed catalog of
  filesystem and identity operations (`Op`), and helper constructors;
- a two-step confirmation gate in front of the hour-long kernel build.

The model has three modules:

- `Component` (`component.dfy`) holds `Phase` with its discriminant (`Rank`),
  the derived order, and the `Display` rendering (`PhaseName`).
  It also holds the `Op` catalog, the helper constructors (`MakeDir`, …,
  `MakeCustom`), and `Installable`. That record is what a component exposes:
  its name, its phase and its operations.
- `Schedule` (`schedule.dfy`) sorts components by phase before execution.
  The crate's doc comments require this sort but the crate never performs it;
  executors in other crates do. `SortByPhase` is one insertion sort that meets
  the requirement. It is proved phase-ordered and a permutation of its input.
- `Kernel` (`kernel.dfy`) holds `KernelGuard` with its accessors, and the gate
  `RequireKernelConfirmation`. The gate is a pure function of the three values
  a `KernelBuildGuard` implementor supplies. It returns `NotRequested`,
  `Confirmed`, or `Halt(message, exitCode)`. `Halt` stands for printing the
  warning to standard error and exiting the process.

Rust's `u32` is the newtype `u32` (0 ≤ x < 2^32). Strings are `string`.

## Model

| member | source | states |
|---|---|---|
| Component.Rank | src/component.rs:29-50 | every phase's discriminant lies in 1..9 |
| Component.RankIsDeclaredPosition | src/component.rs:31-50 | each phase sits at position Rank-1 of the declaration |
| Component.RankOfDeclaredIndex | src/component.rs:31-50 | the i-th declared phase (from 0) has discriminant i+1, for every phase including `Final` |
| Component.RankFollowsDeclaration | src/component.rs:31-50 | discriminants strictly increase in declaration order |
| Component.Less | src/component.rs:29 | the derived `<` on phases compares discriminants; its order properties are stated by `PhaseOrderIsStrictTotal` |
| Component.LessEq | src/component.rs:29 | the derived `<=` on phases compares discriminants; `PhaseOrderIsStrictTotal` proves it is `<` or equality |
| Component.RankInjective | src/component.rs:31-50 | distinct phases have distinct discriminants |
| Component.PhaseOrderIsStrictTotal | src/component.rs:29 | the derived order compares discriminants and is a strict total order; `<=` is `<` or equality |
| Component.PhaseTestOrdering | src/component.rs:206-211 | Filesystem < Binaries < Init < Services < Final |
| Component.PhaseName | src/component.rs:52-66 | the rendering of a phase is never empty |
| Component.PhaseNameExamples | src/component.rs:226-230 | Filesystem renders as "Filesystem" and Final as "Final" |
| Component.PhaseNameInjective | src/component.rs:54-64 | distinct phases render to distinct strings |
| Component.MakeDir | src/component.rs:146-149 | builds a `Dir` holding the given path |
| Component.MakeDirMode | src/component.rs:151-154 | builds a `DirMode` holding the given path and mode |
| Component.MakeDirs | src/component.rs:156-159 | builds a `Dirs` holding every given path, same length, same order |
| Component.MakeWriteFile | src/component.rs:161-164 | builds a `WriteFile` holding the given path and content |
| Component.MakeWriteFileMode | src/component.rs:166-169 | builds a `WriteFileMode` holding the given path, content and mode |
| Component.MakeSymlink | src/component.rs:171-174 | builds a `Symlink` with the link path first and the target second |
| Component.MakeBin | src/component.rs:176-179 | builds a `Bin` holding the given name |
| Component.MakeSbin | src/component.rs:181-184 | builds an `Sbin` holding the given name |
| Component.MakeBins | src/component.rs:186-189 | builds a `Bins` holding every given name, same length, same order |
| Component.MakeSbins | src/component.rs:191-194 | builds an `Sbins` holding every given name, same length, same order |
| Component.MakeCustom | src/component.rs:196-199 | builds a `Custom` carrying the token unchanged |
| Component.HelpersInjective | src/component.rs:147-199 | for every helper, equal results come from equal arguments (all of `dir`, `dir_mode`, `dirs`, `write_file`, `write_file_mode`, `symlink`, `bin`, `sbin`, `bins`, `sbins`, `custom`); swapping a symlink's ends changes the result unless they are equal; `bin` and `sbin` never coincide |
| Component.HelperExamples | src/component.rs:214-224 | `dir`, `dir_mode` and `write_file` on the test's values give the expected variants |
| Schedule.Insert | src/component.rs:16-18 | inserting into a phase-ordered list keeps it phase-ordered and adds exactly the one component |
| Schedule.SortByPhase | src/component.rs:25-28 | the result is ordered by phase and is a permutation of the input |
| Schedule.EarlierPhaseScheduledFirst | src/component.rs:25-28 | after sorting, a component of an earlier phase comes before every component of a later phase, whatever the registration order |
| Schedule.SortOrderedIsIdentity | src/component.rs:16-18 | sorting a list already ordered by phase leaves it unchanged |
| Schedule.InsertKeepsPhaseOrder | src/component.rs:16-18 | insertion keeps each phase's components in order and puts the new one first in its phase |
| Schedule.SortByPhaseIsStable | src/component.rs:16-18 | the components of each phase keep their registration order (a property of this sort only) |
| Kernel.KernelGuard.KernelRequested | src/kernel.rs:73 | returns the guard's requested flag; `NewKernelGuard` states this for a new guard |
| Kernel.KernelGuard.KernelConfirmed | src/kernel.rs:74 | returns the guard's confirmed flag; `NewKernelGuard` states this for a new guard |
| Kernel.KernelGuard.KernelExampleCmd | src/kernel.rs:75 | returns the guard's example command; `NewKernelGuard` states this for a new guard |
| Kernel.Gate | src/kernel.rs:31-50 | the default gate run on a `KernelGuard` (src/kernel.rs:72-76): it continues exactly when the guard is not requested or is confirmed, goes on to the kernel step exactly when requested and confirmed, and otherwise halts with exit status 1 and a warning showing the guard's example command; `GateOfNewGuard` ties it to the values a guard is built from |
| Kernel.NewKernelGuard | src/kernel.rs:66-76 | the accessors of a new guard return exactly the requested flag, the confirmed flag and the example command it was built from |
| Kernel.Warning | src/kernel.rs:38-48 | the warning shows the example command verbatim and the flag `--dangerously-waste-the-users-time` |
| Kernel.RequireKernelConfirmation | src/kernel.rs:31-50 | not requested: continue; requested and confirmed: continue with no warning; requested and unconfirmed: halt with exit status 1 and a warning showing the example command and the confirmation flag |
| Kernel.DecisionIgnoresExampleCmd | src/kernel.rs:31-49 | the decision depends only on the two flags; the example command changes only the warning text |
| Kernel.GateOfNewGuard | src/kernel.rs:72-76 | the gate reads a `KernelGuard` through its accessors and judges it by the values it was built from |

## Left out

- Console rendering of the warning (src/kernel.rs:39-48): the box-drawing frame and the 57-column padding are dropped. `Warning` keeps the text lines, with the example command on a line of its own.
- `eprintln!` and `std::process::exit` are not performed. `RequireKernelConfirmation` returns them as the `Halt` outcome, and the caller would print and exit.
- `KernelBuildGuard` is a trait, so any type may implement it. The gate is modelled over the three values its accessors return. `KernelGuard` is the one implementor in the crate.
- `Installable` is a trait with no implementations in the crate. It is modelled as a record of the values its three methods return.
- Helper constructors (`MakeDir` and the others): each takes `string`. The source accepts any `impl Into<String>`, and the conversion is treated as the identity on the text.
- `KernelInstallConfig` (src/kernel.rs:7-13) is an interface with no implementation here.
- src/context.rs, src/disk.rs and src/lib.rs are not part of this model. They hold interfaces over host paths, distro constants and disk images (`BuildContext`, `DistroConfig`, `DiskImageConfig`), the `PackageManager` and `InitSystem` enums, the `DiskUuids` record, and re-exports. Two small bodies there are left out as well: the `Display` of `InitSystem`, which renders "systemd" or "OpenRC" (src/context.rs:49-56), and the default `extra_required_tools`, which returns an empty list (src/disk.rs:56-58). Neither is used by the component vocabulary or the kernel gate.
- The operation executor, conflict detection, path canonicalisation and disk image assembly belong to other crates and are not part of this model.
- Schedule.SortByPhase: the crate states only that components are sorted by phase. It names no algorithm and does not promise stability. The stability lemmas hold for this sort only.
