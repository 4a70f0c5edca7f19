/** The Rust-specific values of a build target: crate name, root source file,
    crate type, edition and the names under which dependencies are renamed. */
module RustTargetValues {
  import opened Wrappers
  import opened Paths

  /** A target label: its directory and name, and the directory and name of
      the toolchain it is built in. */
  datatype Label = Label(dir: string, name: string, toolchainDir: string, toolchainName: string)

  /** Crate types given explicitly; every other type is deduced from the kind
      of target, which is what `CrateAuto` stands for. */
  datatype CrateType = CrateAuto | CrateDylib | CrateCdylib | CrateProcMacro

  /** The enumerator's integer value. */
  function Ordinal(t: CrateType): (n: nat)
    ensures n < 4
    ensures n == 0 <==> t == CrateAuto
  {
    match t
    case CrateAuto => 0
    case CrateDylib => 1
    case CrateCdylib => 2
    case CrateProcMacro => 3
  }

  /** The enumerator with integer value `n`, if there is one. */
  function FromOrdinal(n: nat): (r: Option<CrateType>)
    ensures r.Some? <==> n < 4
  {
    if n == 0 then Some(CrateAuto)
    else if n == 1 then Some(CrateDylib)
    else if n == 2 then Some(CrateCdylib)
    else if n == 3 then Some(CrateProcMacro)
    else None
  }

  /** The four enumerators have four distinct values, 0 to 3, and no other
      value names a crate type. */
  lemma OrdinalRoundTrip(t: CrateType, n: nat)
    ensures FromOrdinal(Ordinal(t)) == Some(t)
    ensures FromOrdinal(n).Some? ==> Ordinal(FromOrdinal(n).value) == n
  {
  }

  /** A snapshot of every field of a `RustValues`. */
  datatype Fields = Fields(
    crateName: string,
    crateRoot: SourceFile,
    crateType: CrateType,
    edition: string,
    renamedDeps: map<Label, string>)

  class RustValues {
    var crateName: string
    var crateRoot: SourceFile
    var crateType: CrateType
    var edition: string
    /** At most one new name per dependency label. */
    var renamedDeps: map<Label, string>

    function Snapshot(): Fields
      reads this
    {
      Fields(crateName, crateRoot, crateType, edition, renamedDeps)
    }

    /** The string members start empty, as does the rename map; the initial
        crate type is set outside this class and is left open. */
    constructor ()
      ensures crateName == "" && crateRoot == "" && edition == "" && renamedDeps == map[]
    {
      crateName := "";
      crateRoot := "";
      edition := "";
      renamedDeps := map[];
    }

    function CrateName(): string
      reads this
    {
      crateName
    }

    function CrateRoot(): SourceFile
      reads this
    {
      crateRoot
    }

    function GetCrateType(): CrateType
      reads this
    {
      crateType
    }

    function Edition(): string
      reads this
    {
      edition
    }

    function RenamedDeps(): map<Label, string>
      reads this
    {
      renamedDeps
    }

    /** Assignment through the mutable crate name reference. */
    method AssignCrateName(s: string)
      modifies this
      ensures CrateName() == s
      ensures Snapshot() == old(Snapshot()).(crateName := s)
    {
      crateName := s;
    }

    method SetCrateRoot(s: SourceFile)
      modifies this
      ensures CrateRoot() == s
      ensures Snapshot() == old(Snapshot()).(crateRoot := s)
    {
      crateRoot := s;
    }

    method SetCrateType(t: CrateType)
      modifies this
      ensures GetCrateType() == t
      ensures Snapshot() == old(Snapshot()).(crateType := t)
    {
      crateType := t;
    }

    /** Assignment through the mutable edition reference. */
    method AssignEdition(s: string)
      modifies this
      ensures Edition() == s
      ensures Snapshot() == old(Snapshot()).(edition := s)
    {
      edition := s;
    }

    /** Assignment of `name` to the entry for `dep` in the mutable rename map:
        a second rename of the same label replaces the first. */
    method RenameDep(dep: Label, name: string)
      modifies this
      ensures RenamedDeps() == old(RenamedDeps())[dep := name]
      ensures dep in RenamedDeps() && RenamedDeps()[dep] == name
      ensures RenamedDeps().Keys == old(RenamedDeps()).Keys + {dep}
      ensures Snapshot() == old(Snapshot()).(renamedDeps := old(renamedDeps)[dep := name])
    {
      renamedDeps := renamedDeps[dep := name];
    }
  }

  /** The target of the compiler-target-triple tests: root `//foo/lib.rs`,
      crate name "foo"; the other fields keep their values. */
  method ConfigureFoo(v: RustValues)
    modifies v
    ensures v.CrateRoot() == "//foo/lib.rs" && v.CrateName() == "foo"
    ensures v.Snapshot() == old(v.Snapshot()).(crateRoot := "//foo/lib.rs", crateName := "foo")
  {
    v.SetCrateRoot("//foo/lib.rs");
    v.AssignCrateName("foo");
  }
}
