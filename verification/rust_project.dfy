/** The crate-graph projector's helpers: crates built up in place, the crate list
    whose positions are the crate ids, the standard-library ("sysroot") crates it
    can be seeded with, and the lookup of an explicit compiler target triple. */
module RustProject {
  import opened Wrappers
  import opened Paths
  import opened CrateJson

  /** A crate under construction. Dependencies and configuration items are
      appended in place; `Value` is the copy a crate list stores. */
  class Crate {
    var root: SourceFile
    var index: nat
    var crateLabel: string
    var deps: seq<Dependency>
    var edition: string
    var configs: seq<string>

    function Value(): CrateInfo
      reads this
    {
      CrateInfo(root, index, crateLabel, deps, edition, configs)
    }

    constructor (root: SourceFile, index: nat, crateLabel: string, edition: string)
      ensures Value() == CrateInfo(root, index, crateLabel, [], edition, [])
    {
      this.root := root;
      this.index := index;
      this.crateLabel := crateLabel;
      this.deps := [];
      this.edition := edition;
      this.configs := [];
    }

    /** Records an edge to crate `index`, referred to as `name`, after the edges already recorded. */
    method AddDependency(index: nat, name: string)
      modifies this
      ensures Value() == old(Value()).(deps := old(deps) + [Dependency(index, name)])
    {
      deps := deps + [Dependency(index, name)];
    }

    /** Records a configuration item after the items already recorded. */
    method AddConfigItem(item: string)
      modifies this
      ensures Value() == old(Value()).(configs := old(configs) + [item])
    {
      configs := configs + [item];
    }
  }

  /** The crates of one projection, in the order they were added. */
  class CrateList {
    var crates: seq<CrateInfo>

    constructor ()
      ensures crates == []
    {
      crates := [];
    }

    /** Appends a copy of `c`: later changes to `c` do not reach the list. */
    method PushBack(c: Crate)
      modifies this
      ensures crates == old(crates) + [c.Value()]
    {
      crates := crates + [c.Value()];
    }
  }

  /** Which sysroot crate name has been given which crate id. */
  class SysrootIndexMap {
    var indices: map<string, nat>

    constructor ()
      ensures indices == map[]
    {
      indices := map[];
    }

    method Insert(name: string, index: nat)
      modifies this
      ensures indices == old(indices)[name := index]
    {
      indices := indices[name := index];
    }
  }

  /** Crate `k` has id `k`. */
  ghost predicate IdsArePositions(cs: seq<CrateInfo>)
  {
    forall k :: 0 <= k < |cs| ==> cs[k].index == k
  }

  /** Every dependency edge of crate `k` names a crate added before it. */
  ghost predicate DepsPointBackward(cs: seq<CrateInfo>)
  {
    forall k, j :: 0 <= k < |cs| && 0 <= j < |cs[k].deps| ==> cs[k].deps[j].crateId < k
  }

  /** Every name in the lookup maps to a crate of the list carrying that name as its label. */
  ghost predicate LookupConsistent(lookup: map<string, nat>, cs: seq<CrateInfo>)
  {
    forall n :: n in lookup ==> lookup[n] < |cs| && cs[lookup[n]].crateLabel == n
  }

  // ---------------------------------------------------------------------------
  // Sysroot crates

  /** The standard-library crates, in the order they receive ids: every crate
      comes after the crates it depends on. */
  const SysrootCrateNames: seq<string> := [
    "core", "alloc", "panic_abort", "unwind", "std", "collections", "libc",
    "panic_unwind", "proc_macro", "rustc_unicode", "std_unicode", "test",
    "alloc_jemalloc", "alloc_system", "compiler_builtins", "getopts",
    "build_helper", "rustc_asan", "rustc_lsan", "rustc_msan", "rustc_tsan",
    "syntax"]

  /** The dependencies between sysroot crates, as plain data; crates not listed have none. */
  const SysrootDepsTable: map<string, seq<string>> := map[
    "alloc" := ["core"],
    "std" := ["alloc", "core", "panic_abort", "unwind"]]

  const SysrootEdition: string := "2018"

  /** The one configuration item of every sysroot crate (singular, as emitted). */
  const SysrootConfigItem: string := "debug_assertion"

  function SysrootDeps(name: string): seq<string>
  {
    if name in SysrootDepsTable then SysrootDepsTable[name] else []
  }

  /** Root module of sysroot crate `name`: the build directory, the sysroot, then
      the conventional source location of the standard library. */
  function SysrootRoot(buildDir: string, sysroot: string, name: string): SourceFile
  {
    buildDir + sysroot + "/lib/rustlib/src/rust/src/lib" + name + "/lib.rs"
  }

  predicate AllIn(names: seq<string>, lookup: map<string, nat>)
  {
    forall j :: 0 <= j < |names| ==> names[j] in lookup
  }

  /** Edges to the named crates, each with the id the lookup gives it. */
  function DepsOf(names: seq<string>, lookup: map<string, nat>): (ds: seq<Dependency>)
    requires AllIn(names, lookup)
    ensures |ds| == |names|
    ensures forall j :: 0 <= j < |ds| ==> ds[j] == Dependency(lookup[names[j]], names[j])
  {
    seq(|names|, j requires 0 <= j < |names| => Dependency(lookup[names[j]], names[j]))
  }

  /** The sysroot crate `name` with id `index`. */
  function SysrootCrate(buildDir: string, sysroot: string, name: string, index: nat, lookup: map<string, nat>): CrateInfo
    requires AllIn(SysrootDeps(name), lookup)
  {
    CrateInfo(SysrootRoot(buildDir, sysroot, name), index, name,
              DepsOf(SysrootDeps(name), lookup), SysrootEdition, [SysrootConfigItem])
  }

  /** The sysroot names before position `i` cover every dependency of name `i`. */
  lemma SysrootDepsComeFirst(i: nat, lookup: map<string, nat>)
    requires i < |SysrootCrateNames|
    requires AllIn(SysrootCrateNames[..i], lookup)
    ensures AllIn(SysrootDeps(SysrootCrateNames[i]), lookup)
  {
    var names := SysrootCrateNames;
    if i == 1 {
      assert names[..i][0] == "core";
    } else if i == 4 {
      assert names[..i][0] == "core" && names[..i][1] == "alloc";
      assert names[..i][2] == "panic_abort" && names[..i][3] == "unwind";
    } else {
      assert SysrootDeps(names[i]) == [];
    }
  }

  /** One round of the sysroot loop: a name the lookup already holds is skipped;
      otherwise the crate gets the next free id, is recorded in the lookup, and
      its dependency edges use the ids the lookup holds for its dependencies. */
  function SysrootStep(buildDir: string, sysroot: string, lookup: map<string, nat>,
                       crates: seq<CrateInfo>, name: string): (r: (map<string, nat>, seq<CrateInfo>))
    requires AllIn(SysrootDeps(name), lookup)
    ensures name in r.0 && lookup.Keys <= r.0.Keys
  {
    if name in lookup then (lookup, crates)
    else (lookup[name := |crates|],
          crates + [SysrootCrate(buildDir, sysroot, name, |crates|, lookup)])
  }

  lemma AllInGrows(names: seq<string>, n: nat, lookup: map<string, nat>, lookup': map<string, nat>)
    requires 0 < n <= |names| && AllIn(names[..n - 1], lookup)
    requires names[n - 1] in lookup' && lookup.Keys <= lookup'.Keys
    ensures AllIn(names[..n], lookup')
  {
    forall j | 0 <= j < n
      ensures names[..n][j] in lookup'
    {
      if j < n - 1 {
        assert names[..n][j] == names[..n - 1][j];
      }
    }
  }

  /** The state after the first `n` rounds of the sysroot loop. */
  function AddSysrootSpec(buildDir: string, sysroot: string, lookup: map<string, nat>,
                          crates: seq<CrateInfo>, n: nat): (r: (map<string, nat>, seq<CrateInfo>))
    requires n <= |SysrootCrateNames|
    ensures AllIn(SysrootCrateNames[..n], r.0)
  {
    if n == 0 then (lookup, crates)
    else
      var prev := AddSysrootSpec(buildDir, sysroot, lookup, crates, n - 1);
      SysrootDepsComeFirst(n - 1, prev.0);
      var r := SysrootStep(buildDir, sysroot, prev.0, prev.1, SysrootCrateNames[n - 1]);
      AllInGrows(SysrootCrateNames, n, prev.0, r.0);
      r
  }

  /** Builds sysroot crate `name` with id `index`: its root module, its
      configuration item, then an edge to each of its dependencies under the id
      the lookup gives it. */
  method NewSysrootCrate(buildDir: string, sysroot: string, name: string, index: nat, lookup: map<string, nat>)
    returns (c: Crate)
    requires AllIn(SysrootDeps(name), lookup)
    ensures fresh(c)
    ensures c.Value() == SysrootCrate(buildDir, sysroot, name, index, lookup)
  {
    c := new Crate(SysrootRoot(buildDir, sysroot, name), index, name, SysrootEdition);
    c.AddConfigItem(SysrootConfigItem);
    var deps := SysrootDeps(name);
    var j := 0;
    while j < |deps|
      invariant 0 <= j <= |deps|
      invariant c.Value() == CrateInfo(SysrootRoot(buildDir, sysroot, name), index, name,
                                       DepsOf(deps[..j], lookup), SysrootEdition, [SysrootConfigItem])
    {
      c.AddDependency(lookup[deps[j]], deps[j]);
      j := j + 1;
    }
    assert deps[..j] == deps;
  }

  /** Appends the sysroot crates that `lookup` does not hold yet, in table order,
      and records each one's id in `lookup`. */
  method AddSysroot(buildDir: string, sysroot: string, lookup: SysrootIndexMap, crates: CrateList)
    modifies lookup, crates
    ensures (lookup.indices, crates.crates)
         == AddSysrootSpec(buildDir, sysroot, old(lookup.indices), old(crates.crates), |SysrootCrateNames|)
  {
    var i := 0;
    while i < |SysrootCrateNames|
      invariant 0 <= i <= |SysrootCrateNames|
      invariant (lookup.indices, crates.crates)
             == AddSysrootSpec(buildDir, sysroot, old(lookup.indices), old(crates.crates), i)
    {
      var name := SysrootCrateNames[i];
      SysrootDepsComeFirst(i, lookup.indices);
      if name !in lookup.indices {
        var index := |crates.crates|;
        var c := NewSysrootCrate(buildDir, sysroot, name, index, lookup.indices);
        lookup.Insert(name, index);
        crates.PushBack(c);
      }
      i := i + 1;
    }
  }

  /** The properties a crate list and its sysroot lookup keep while crates are appended. */
  ghost predicate GraphInvariant(lookup: map<string, nat>, cs: seq<CrateInfo>)
  {
    IdsArePositions(cs) && DepsPointBackward(cs) && LookupConsistent(lookup, cs)
  }

  /** The primed state extends the other: the crates already present and the ids already given are unchanged. */
  ghost predicate Extends(lookup: map<string, nat>, crates: seq<CrateInfo>,
                          lookup': map<string, nat>, crates': seq<CrateInfo>)
  {
    |crates| <= |crates'| && crates'[..|crates|] == crates &&
    forall name :: name in lookup ==> name in lookup' && lookup'[name] == lookup[name]
  }

  lemma SysrootStepKeepsInvariants(buildDir: string, sysroot: string, lookup: map<string, nat>,
                                   crates: seq<CrateInfo>, name: string)
    requires AllIn(SysrootDeps(name), lookup)
    requires GraphInvariant(lookup, crates)
    ensures var r := SysrootStep(buildDir, sysroot, lookup, crates, name);
      GraphInvariant(r.0, r.1) && Extends(lookup, crates, r.0, r.1) && name in r.0
  {
    if name !in lookup {
      var r := SysrootStep(buildDir, sysroot, lookup, crates, name);
      var c := SysrootCrate(buildDir, sysroot, name, |crates|, lookup);
      assert r.1 == crates + [c];
      forall j | 0 <= j < |c.deps|
        ensures c.deps[j].crateId < |crates|
      {
        var d := SysrootDeps(name)[j];
        assert d in lookup;
      }
      assert r.1[..|crates|] == crates;
    }
  }

  /** Appending sysroot crates keeps ids equal to positions, keeps every
      dependency edge pointing at an earlier crate and keeps the lookup naming
      crates by their labels; crates already present are left as they were. */
  lemma {:induction false} AddSysrootKeepsInvariants(buildDir: string, sysroot: string, lookup: map<string, nat>,
                                                     crates: seq<CrateInfo>, n: nat)
    requires n <= |SysrootCrateNames|
    requires GraphInvariant(lookup, crates)
    ensures var r := AddSysrootSpec(buildDir, sysroot, lookup, crates, n);
      GraphInvariant(r.0, r.1) && Extends(lookup, crates, r.0, r.1)
  {
    if n > 0 {
      AddSysrootKeepsInvariants(buildDir, sysroot, lookup, crates, n - 1);
      var prev := AddSysrootSpec(buildDir, sysroot, lookup, crates, n - 1);
      SysrootDepsComeFirst(n - 1, prev.0);
      SysrootStepKeepsInvariants(buildDir, sysroot, prev.0, prev.1, SysrootCrateNames[n - 1]);
      var r := AddSysrootSpec(buildDir, sysroot, lookup, crates, n);
      assert r == SysrootStep(buildDir, sysroot, prev.0, prev.1, SysrootCrateNames[n - 1]);
      assert r.1[..|crates|] == prev.1[..|prev.1|][..|crates|];
    }
  }

  /** The dependency edges of the `k`-th sysroot crate when the list starts empty:
      alloc (id 1) uses core (id 0); std (id 4) uses alloc, core, panic_abort and
      unwind (ids 1, 0, 2, 3); no other crate has any. */
  function ExpectedSysrootDeps(k: nat): seq<Dependency>
  {
    if k == 1 then [Dependency(0, "core")]
    else if k == 4 then [Dependency(1, "alloc"), Dependency(0, "core"),
                         Dependency(2, "panic_abort"), Dependency(3, "unwind")]
    else []
  }

  /** The crates the sysroot adds to an empty list. */
  function ExpectedSysroot(buildDir: string, sysroot: string): seq<CrateInfo>
  {
    seq(|SysrootCrateNames|, k requires 0 <= k < |SysrootCrateNames| =>
      CrateInfo(SysrootRoot(buildDir, sysroot, SysrootCrateNames[k]), k, SysrootCrateNames[k],
                ExpectedSysrootDeps(k), "2018", ["debug_assertion"]))
  }

  /** The lookup holds exactly `names`, the `k`-th of them with id `k`. */
  ghost predicate IndexedBy(lookup: map<string, nat>, names: seq<string>)
  {
    (forall k :: 0 <= k < |names| ==> names[k] in lookup && lookup[names[k]] == k) &&
    (forall name :: name in lookup ==> name in names)
  }

  ghost predicate FirstNamesIndexed(lookup: map<string, nat>, n: nat)
    requires n <= |SysrootCrateNames|
  {
    IndexedBy(lookup, SysrootCrateNames[..n])
  }

  lemma IndexedByAppend(lookup: map<string, nat>, names: seq<string>, name: string)
    requires IndexedBy(lookup, names) && name !in names
    ensures IndexedBy(lookup[name := |names|], names + [name])
  {
    var lookup' := lookup[name := |names|];
    var names' := names + [name];
    forall k | 0 <= k < |names'|
      ensures names'[k] in lookup' && lookup'[names'[k]] == k
    {
      if k < |names| {
        assert names'[k] == names[k];
      }
    }
    forall other | other in lookup'
      ensures other in names'
    {
      if other != name {
        var k :| 0 <= k < |names| && names[k] == other;
        assert names'[k] == other;
      } else {
        assert names'[|names|] == name;
      }
    }
  }

  lemma SysrootNamesDistinct()
    ensures forall i, j :: 0 <= i < j < |SysrootCrateNames| ==> SysrootCrateNames[i] != SysrootCrateNames[j]
  {
  }

  lemma SysrootNameIsNew(n: nat)
    requires n < |SysrootCrateNames|
    ensures SysrootCrateNames[n] !in SysrootCrateNames[..n]
  {
    SysrootNamesDistinct();
  }

  /** Only crates 1 (alloc) and 4 (std) have dependencies. */
  lemma SysrootDepsOfOthers(k: nat)
    requires k < |SysrootCrateNames| && k != 1 && k != 4
    ensures SysrootDeps(SysrootCrateNames[k]) == []
  {
    SysrootNamesDistinct();
    assert SysrootCrateNames[1] == "alloc" && SysrootCrateNames[4] == "std";
  }

  lemma SysrootDepsOnPrefix(k: nat, lookup: map<string, nat>)
    requires k < |SysrootCrateNames| && FirstNamesIndexed(lookup, k)
    ensures AllIn(SysrootDeps(SysrootCrateNames[k]), lookup)
    ensures DepsOf(SysrootDeps(SysrootCrateNames[k]), lookup) == ExpectedSysrootDeps(k)
  {
    var prefix := SysrootCrateNames[..k];
    if k == 1 {
      assert prefix[0] == "core";
      assert SysrootDeps(SysrootCrateNames[1]) == ["core"];
    } else if k == 4 {
      assert prefix[0] == "core" && prefix[1] == "alloc" && prefix[2] == "panic_abort" && prefix[3] == "unwind";
      assert SysrootDeps(SysrootCrateNames[4]) == ["alloc", "core", "panic_abort", "unwind"];
    } else {
      SysrootDepsOfOthers(k);
    }
  }

  lemma SysrootStepCrate(buildDir: string, sysroot: string, k: nat, lookup: map<string, nat>)
    requires k < |SysrootCrateNames| && FirstNamesIndexed(lookup, k)
    ensures AllIn(SysrootDeps(SysrootCrateNames[k]), lookup)
    ensures SysrootCrate(buildDir, sysroot, SysrootCrateNames[k], k, lookup) == ExpectedSysroot(buildDir, sysroot)[k]
  {
    SysrootDepsOnPrefix(k, lookup);
  }

  lemma SysrootOnEmptyStep(buildDir: string, sysroot: string, n: nat,
                           lookup: map<string, nat>, crates: seq<CrateInfo>)
    requires 0 < n <= |SysrootCrateNames|
    requires FirstNamesIndexed(lookup, n - 1) && crates == ExpectedSysroot(buildDir, sysroot)[..n - 1]
    ensures AllIn(SysrootDeps(SysrootCrateNames[n - 1]), lookup)
    ensures var r := SysrootStep(buildDir, sysroot, lookup, crates, SysrootCrateNames[n - 1]);
      FirstNamesIndexed(r.0, n) && r.1 == ExpectedSysroot(buildDir, sysroot)[..n]
  {
    var name := SysrootCrateNames[n - 1];
    var prefix := SysrootCrateNames[..n - 1];
    SysrootNameIsNew(n - 1);
    assert name !in lookup;
    SysrootStepCrate(buildDir, sysroot, n - 1, lookup);
    SliceSnoc(ExpectedSysroot(buildDir, sysroot), n);
    IndexedByAppend(lookup, prefix, name);
    SliceSnoc(SysrootCrateNames, n);
  }

  lemma SliceSnoc<T>(xs: seq<T>, n: nat)
    requires 0 < n <= |xs|
    ensures xs[..n] == xs[..n - 1] + [xs[n - 1]]
  {
  }

  lemma {:induction false} SysrootOnEmptyPrefix(buildDir: string, sysroot: string, n: nat)
    requires n <= |SysrootCrateNames|
    ensures var r := AddSysrootSpec(buildDir, sysroot, map[], [], n);
      FirstNamesIndexed(r.0, n) && r.1 == ExpectedSysroot(buildDir, sysroot)[..n]
  {
    if n > 0 {
      SysrootOnEmptyPrefix(buildDir, sysroot, n - 1);
      var prev := AddSysrootSpec(buildDir, sysroot, map[], [], n - 1);
      SysrootOnEmptyStep(buildDir, sysroot, n, prev.0, prev.1);
    }
  }

  /** The sysroot seeded into an empty crate list: 22 crates with ids 0 to 21
      in table order, each labelled with its bare name, edition "2018", the one
      configuration item "debug_assertion", the conventional root module, and
      the dependency edges of `ExpectedSysrootDeps`; the lookup then gives every
      sysroot name its crate's id. */
  lemma SysrootOnEmpty(buildDir: string, sysroot: string)
    ensures var r := AddSysrootSpec(buildDir, sysroot, map[], [], |SysrootCrateNames|);
      r.1 == ExpectedSysroot(buildDir, sysroot) && |r.1| == 22 &&
      GraphInvariant(r.0, r.1) && FirstNamesIndexed(r.0, |SysrootCrateNames|)
  {
    SysrootOnEmptyPrefix(buildDir, sysroot, |SysrootCrateNames|);
    AddSysrootKeepsInvariants(buildDir, sysroot, map[], [], |SysrootCrateNames|);
    var cs := ExpectedSysroot(buildDir, sysroot);
    assert cs[..|cs|] == cs;
  }

  /** Every sysroot root module lies in a directory of its own, so the roots
      list names `<build dir><sysroot>/lib/rustlib/src/rust/src/lib<name>/`. */
  lemma SysrootRootDirectory(buildDir: string, sysroot: string, name: string)
    ensures DirName(SysrootRoot(buildDir, sysroot, name))
         == buildDir + sysroot + "/lib/rustlib/src/rust/src/lib" + name + "/"
  {
    var dir := buildDir + sysroot + "/lib/rustlib/src/rust/src/lib" + name + "/";
    assert SysrootRoot(buildDir, sysroot, name) == dir + "lib.rs";
    DirNameOfFile(dir, "lib.rs");
  }

  /** The rendering test's crate list: two crates built in place, the second
      depending on the first and carrying two configuration items, the second
      of them already escaped; the list holds copies made after the updates. */
  method BuildTwoCrates() returns (cs: seq<CrateInfo>)
    ensures cs == [
      CrateInfo("tortoise/lib.rs", 0, "//tortoise:bar", [], "2015", []),
      CrateInfo("hare/lib.rs", 1, "//hare:bar", [Dependency(0, "tortoise")], "2015",
                ["unix", "feature=\\\"test\\\""])]
  {
    var crates := new CrateList();
    var dep := new Crate("tortoise/lib.rs", 0, "//tortoise:bar", "2015");
    var target := new Crate("hare/lib.rs", 1, "//hare:bar", "2015");
    target.AddDependency(0, "tortoise");
    target.AddConfigItem("unix");
    target.AddConfigItem("feature=\\\"test\\\"");
    var tortoise := CrateInfo("tortoise/lib.rs", 0, "//tortoise:bar", [], "2015", []);
    var hare := CrateInfo("hare/lib.rs", 1, "//hare:bar", [Dependency(0, "tortoise")], "2015",
                          ["unix", "feature=\\\"test\\\""]);
    assert dep.Value() == tortoise;
    assert target.Value() == hare;
    crates.PushBack(dep);
    assert crates.crates == [tortoise];
    crates.PushBack(target);
    assert crates.crates == [tortoise, hare];
    cs := crates.crates;
  }

  /** The sysroot test's crate list: `AddSysroot` on a fresh lookup and an empty
      list produces exactly the expected 22 crates. */
  method SeedSysroot(buildDir: string, sysroot: string) returns (cs: seq<CrateInfo>)
    ensures cs == ExpectedSysroot(buildDir, sysroot)
    ensures IdsArePositions(cs) && DepsPointBackward(cs)
  {
    var lookup := new SysrootIndexMap();
    var crates := new CrateList();
    AddSysroot(buildDir, sysroot, lookup, crates);
    SysrootOnEmpty(buildDir, sysroot);
    cs := crates.crates;
  }

  /** In the sysroot test (build directory "out/Debug/", sysroot "path") libc,
      crate 6, has its root module under `liblibc`. */
  lemma SysrootTestLibcRoot()
    ensures ExpectedSysroot("out/Debug/", "path")[6].root
         == "out/Debug/path/lib/rustlib/src/rust/src/liblibc/lib.rs"
  {
    assert SysrootCrateNames[6] == "libc";
    var root := ExpectedSysroot("out/Debug/", "path")[6].root;
    assert root == SysrootRoot("out/Debug/", "path", "libc");
    assert "out/Debug/" + "path" == "out/Debug/path";
    assert "out/Debug/path" + "/lib/rustlib/src/rust/src/lib" == "out/Debug/path/lib/rustlib/src/rust/src/lib";
    assert "out/Debug/path/lib/rustlib/src/rust/src/lib" + "libc" == "out/Debug/path/lib/rustlib/src/rust/src/liblibc";
    assert "out/Debug/path/lib/rustlib/src/rust/src/liblibc" + "/lib.rs" == "out/Debug/path/lib/rustlib/src/rust/src/liblibc/lib.rs";
  }

  // ---------------------------------------------------------------------------
  // Compiler target triple

  /** The position of the first occurrence of `flag`, if there is one. */
  function FindFirst(flags: seq<string>, flag: string): (r: Option<nat>)
    ensures r.Some? ==> r.value < |flags| && flags[r.value] == flag && flag !in flags[..r.value]
    ensures r.None? ==> flag !in flags
  {
    if flags == [] then None
    else if flags[0] == flag then Some(0)
    else match FindFirst(flags[1..], flag)
      case None => None
      case Some(i) =>
        assert flags[..i + 1] == [flags[0]] + flags[1..][..i];
        Some(i + 1)
  }

  /** The token after the first "--target" among a target's rustflags; none when
      "--target" is absent or is the last flag. */
  function ExtractCompilerTargetTriple(rustflags: seq<string>): (r: Option<string>)
    ensures "--target" !in rustflags ==> r == None
    ensures forall i :: 0 <= i < |rustflags| && rustflags[i] == "--target" && "--target" !in rustflags[..i] ==>
              r == (if i + 1 < |rustflags| then Some(rustflags[i + 1]) else None)
  {
    match FindFirst(rustflags, "--target")
    case None => None
    case Some(i) => if i + 1 < |rustflags| then Some(rustflags[i + 1]) else None
  }

  lemma TargetTripleSimple(rustflags: seq<string>)
    requires rustflags == ["--cfg=feature=\"foo_enabled\"", "--target", "x86-someos", "--edition=2018"]
    ensures ExtractCompilerTargetTriple(rustflags) == Some("x86-someos")
  {
    assert rustflags[1] == "--target" && "--target" !in rustflags[..1];
  }

  lemma TargetTripleMissing(rustflags: seq<string>)
    requires rustflags == ["--cfg=feature=\"foo_enabled\"", "x86-someos", "--edition=2018"]
    ensures ExtractCompilerTargetTriple(rustflags) == None
  {
  }

  lemma TargetTripleDontFallOffEnd(rustflags: seq<string>)
    requires rustflags == ["--cfg=feature=\"foo_enabled\"", "--edition=2018", "--target"]
    ensures ExtractCompilerTargetTriple(rustflags) == None
  {
    assert rustflags[2] == "--target" && "--target" !in rustflags[..2];
  }
}
