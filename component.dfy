/** The declarative component vocabulary: build phases, the closed catalog of
    filesystem and identity operations, and the helper constructors that
    component definitions use to build operations. */
module Component {

  /** Rust's `u32`, used for permission modes and numeric user/group ids. */
  newtype u32 = x: int | 0 <= x < 0x1_0000_0000

  /** Build phases, in declaration order. Components are sorted by phase
      before execution so that earlier phases (directories) are in place
      before later ones (files copied into them). */
  datatype Phase =
    | Filesystem
    | Binaries
    | Init
    | MessageBus
    | Services
    | Config
    | Packages
    | Firmware
    | Final

  /** All phases in the order they are declared. */
  const Phases: seq<Phase> :=
    [Filesystem, Binaries, Init, MessageBus, Services, Config, Packages, Firmware, Final]

  /** The explicit `u8` discriminant of a phase. */
  function Rank(p: Phase): (r: nat)
    ensures 1 <= r <= |Phases|
  {
    match p
    case Filesystem => 1
    case Binaries => 2
    case Init => 3
    case MessageBus => 4
    case Services => 5
    case Config => 6
    case Packages => 7
    case Firmware => 8
    case Final => 9
  }

  /** The derived `Ord` on the enum: phases compare by their discriminants. */
  predicate Less(p: Phase, q: Phase) {
    Rank(p) < Rank(q)
  }

  predicate LessEq(p: Phase, q: Phase) {
    Rank(p) <= Rank(q)
  }

  /** Every phase sits at position Rank - 1 of the declaration. */
  lemma RankIsDeclaredPosition(p: Phase)
    ensures Phases[Rank(p) - 1] == p
  {
  }

  /** The i-th declared phase (counting from 0) has rank i + 1. */
  lemma RankOfDeclaredIndex(i: int)
    requires 0 <= i < |Phases|
    ensures Rank(Phases[i]) == i + 1
  {
  }

  /** Ranks strictly increase along the declaration. */
  lemma RankFollowsDeclaration(i: int, j: int)
    requires 0 <= i < j < |Phases|
    ensures Rank(Phases[i]) < Rank(Phases[j])
  {
  }

  /** Distinct phases have distinct discriminants. */
  lemma RankInjective(p: Phase, q: Phase)
    requires Rank(p) == Rank(q)
    ensures p == q
  {
  }

  /** The phase order is a strict total order: irreflexive, transitive,
      and any two distinct phases are comparable. `LessEq` is its
      reflexive closure. */
  lemma PhaseOrderIsStrictTotal(p: Phase, q: Phase, s: Phase)
    ensures !Less(p, p)
    ensures Less(p, q) && Less(q, s) ==> Less(p, s)
    ensures p != q ==> Less(p, q) || Less(q, p)
    ensures LessEq(p, q) <==> Less(p, q) || p == q
  {
    if Rank(p) == Rank(q) {
      RankInjective(p, q);
    }
  }

  /** The ordering checked in the crate's own unit test. */
  lemma PhaseTestOrdering()
    ensures Less(Filesystem, Binaries)
    ensures Less(Binaries, Init)
    ensures Less(Init, Services)
    ensures Less(Services, Final)
  {
  }

  /** The `Display` rendering of a phase: the variant's own name. */
  function PhaseName(p: Phase): (s: string)
    ensures |s| > 0
  {
    match p
    case Filesystem => "Filesystem"
    case Binaries => "Binaries"
    case Init => "Init"
    case MessageBus => "MessageBus"
    case Services => "Services"
    case Config => "Config"
    case Packages => "Packages"
    case Firmware => "Firmware"
    case Final => "Final"
  }

  /** The renderings checked in the crate's own unit test. */
  lemma PhaseNameExamples()
    ensures PhaseName(Filesystem) == "Filesystem"
    ensures PhaseName(Final) == "Final"
  {
  }

  /** Distinct phases render to distinct strings. */
  lemma PhaseNameInjective(p: Phase, q: Phase)
    requires PhaseName(p) == PhaseName(q)
    ensures p == q
  {
  }

  /** The closed catalog of declarative operations. Each variant holds only
      the description of the desired end state. */
  datatype Op =
      /** Create a directory and its missing parents. */
    | Dir(path: string)
      /** Create a directory with the given octal permission mode. */
    | DirMode(path: string, mode: u32)
      /** Create several directories. */
    | Dirs(paths: seq<string>)
      /** Write a file with the given content. */
    | WriteFile(path: string, content: string)
      /** Write a file with the given content and permission mode. */
    | WriteFileMode(path: string, content: string, mode: u32)
      /** Create a symlink at `link` pointing to `target`. */
    | Symlink(link: string, target: string)
      /** Copy a single file from the source tree to staging. */
    | CopyFile(path: string)
      /** Copy a directory tree from the source tree to staging. */
    | CopyTree(path: string)
      /** A user account: login name, numeric user and group ids, home
          directory and login shell. */
    | User(name: string, uid: u32, gid: u32, home: string, shell: string)
      /** A group: its name and numeric group id. */
    | Group(name: string, gid: u32)
      /** One binary, by name, to be installed with its libraries under /usr/bin. */
    | Bin(name: string)
      /** One binary, by name, to be installed under /usr/sbin. */
    | Sbin(name: string)
      /** Several binaries, by name, for /usr/bin. */
    | Bins(names: seq<string>)
      /** Several binaries, by name, for /usr/sbin. */
    | Sbins(names: seq<string>)
      /** A distro-specific operation, identified by an opaque token. */
    | Custom(token: string)

  // Helper constructors for readable component definitions. Each builds
  // exactly one variant and carries its arguments into it unchanged.

  function MakeDir(path: string): (r: Op)
    ensures r.Dir? && r.path == path
  {
    Dir(path)
  }

  function MakeDirMode(path: string, mode: u32): (r: Op)
    ensures r.DirMode? && r.path == path && r.mode == mode
  {
    DirMode(path, mode)
  }

  function MakeDirs(paths: seq<string>): (r: Op)
    ensures r.Dirs? && |r.paths| == |paths|
    ensures forall i :: 0 <= i < |paths| ==> r.paths[i] == paths[i]
  {
    Dirs(paths)
  }

  function MakeWriteFile(path: string, content: string): (r: Op)
    ensures r.WriteFile? && r.path == path && r.content == content
  {
    WriteFile(path, content)
  }

  function MakeWriteFileMode(path: string, content: string, mode: u32): (r: Op)
    ensures r.WriteFileMode? && r.path == path && r.content == content && r.mode == mode
  {
    WriteFileMode(path, content, mode)
  }

  function MakeSymlink(link: string, target: string): (r: Op)
    ensures r.Symlink? && r.link == link && r.target == target
  {
    Symlink(link, target)
  }

  function MakeBin(name: string): (r: Op)
    ensures r.Bin? && r.name == name
  {
    Bin(name)
  }

  function MakeSbin(name: string): (r: Op)
    ensures r.Sbin? && r.name == name
  {
    Sbin(name)
  }

  function MakeBins(names: seq<string>): (r: Op)
    ensures r.Bins? && |r.names| == |names|
    ensures forall i :: 0 <= i < |names| ==> r.names[i] == names[i]
  {
    Bins(names)
  }

  function MakeSbins(names: seq<string>): (r: Op)
    ensures r.Sbins? && |r.names| == |names|
    ensures forall i :: 0 <= i < |names| ==> r.names[i] == names[i]
  {
    Sbins(names)
  }

  function MakeCustom(token: string): (r: Op)
    ensures r.Custom? && r.token == token
  {
    Custom(token)
  }

  /** The helpers lose no information: equal results come from equal
      arguments, and a symlink's two ends are not interchangeable. */
  lemma HelpersInjective(a: string, b: string, c: string, d: string, m: u32, n: u32,
                         xs: seq<string>, ys: seq<string>)
    ensures MakeDir(a) == MakeDir(b) ==> a == b
    ensures MakeDirMode(a, m) == MakeDirMode(b, n) ==> a == b && m == n
    ensures MakeDirs(xs) == MakeDirs(ys) ==> xs == ys
    ensures MakeWriteFileMode(a, b, m) == MakeWriteFileMode(c, d, n) ==> a == c && b == d && m == n
    ensures MakeBin(a) == MakeBin(b) ==> a == b
    ensures MakeSbin(a) == MakeSbin(b) ==> a == b
    ensures MakeBins(xs) == MakeBins(ys) ==> xs == ys
    ensures MakeSbins(xs) == MakeSbins(ys) ==> xs == ys
    ensures MakeSymlink(a, b) == MakeSymlink(c, d) ==> a == c && b == d
    ensures MakeSymlink(a, b) == MakeSymlink(b, a) ==> a == b
    ensures MakeWriteFile(a, b) == MakeWriteFile(c, d) ==> a == c && b == d
    ensures MakeBin(a) != MakeSbin(b)
    ensures MakeCustom(a) == MakeCustom(b) ==> a == b
  {
  }

  /** The helper results checked in the crate's own unit test
      (493 is octal 755). */
  lemma HelperExamples()
    ensures MakeDir("etc/foo") == Dir("etc/foo")
    ensures MakeDirMode("etc/foo", 493) == DirMode("etc/foo", 493)
    ensures MakeWriteFile("etc/foo", "bar") == WriteFile("etc/foo", "bar")
  {
  }

  /** What a component (anything `Installable`) exposes: a name for logging,
      the phase it runs in, and the operations it performs. */
  datatype Installable = Installable(name: string, phase: Phase, ops: seq<Op>)
}
