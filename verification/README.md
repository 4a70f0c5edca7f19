# GN Rust project helpers, the `outputs` command and `RustValues`, in Dafny

This project models three parts of GN, the meta-build system that generates
Ninja files:

- **The crate-graph projector helpers.** They build the `rust-project.json`
  description of a build's Rust crates. A `Crate` is built in place:
  `AddDependency` and `AddConfigItem` append edges and cfg items. A
  `CrateList` stores copies of crates, and a crate's position in it is its id.
  `AddSysroot` appends the 22 standard-library ("sysroot") crates and records
  their ids in a `SysrootIndexMap`. `WriteCrates` renders the list as JSON
  text. `ExtractCompilerTargetTriple` scans a target's rustflags for
  `--target`. The implementation file of these helpers is not part of this
  model. Their behaviour is modelled on what
  `src/gn/rust_project_writer_helpers_unittest.cc` pins down: constructor
  arguments, call order and the exact expected output. The model states that
  output line by line for the two-crate test, and through `ExpectedSysroot`
  and the layout lemmas for the sysroot test.
- **The `outputs` command (`RunOutputs`).** It resolves the command-line inputs
  to targets and files. It then collects the outputs of the files, and after
  them the outputs of the targets. It prints them only if everything resolved;
  otherwise it exits with status 1, prints none of the output paths and
  reports an error instead (the `error` field, whose message is `ErrorText`).
  The loaded build is a parameter, `BuildGraph`, whose queries are total
  functions.
- **`RustValues`.** This is the per-target Rust metadata record: crate name,
  crate root, crate type, edition and renamed dependencies. It has getters,
  setters and accessors returning mutable references.

## Files

- `wrappers.dfy`: the `Option` and `Result` datatypes.
- `paths.dfy` (`Paths`): the `SourceFile` path type shared by the other modules.
- `crate_json.dfy` (`CrateJson`): crate values and the `WriteCrates` renderer,
  defined line by line. It includes the layout lemmas and the exact lines of
  the two-crate rendering.
- `rust_project.dfy` (`RustProject`):
  - the `Crate`, `CrateList` and `SysrootIndexMap` classes;
  - the sysroot table and `AddSysroot`, a loop proved against the fold
    `AddSysrootSpec`;
  - the graph invariants it keeps;
  - the crates it yields on an empty list;
  - the target-triple scan.
- `command_outputs.dfy` (`CommandOutputs`):
  - `RunOutputs` and its loops, each proved against a fold over the input
    prefix (`RelationsEffect`, `FilesEffect`, `TargetsEffect`, composed in
    `Outputs`);
  - the front-to-back reference definitions `SourceOutputs` and
    `TargetsOutputs`, and the lemmas tying the two together.
- `rust_values.dfy` (`RustTargetValues`): the `RustValues` class and the
  `CrateType` enumeration.

**String escaping.** String values are written verbatim: `feature=\"test\"`
is added already escaped (unittest line 23) and appears unchanged in the
output (line 64). `Quoted` adds the quotes and changes nothing inside.

## Model

| member | source | states |
|---|---|---|
| RustProject.Crate.constructor | src/gn/rust_project_writer_helpers_unittest.cc:19-20 | A new crate holds the given root module, id, label and edition, with no dependencies and no cfg items |
| RustProject.Crate.AddDependency | src/gn/rust_project_writer_helpers_unittest.cc:21 | Appends the edge (crate id, name) after the edges already recorded; every other field is unchanged |
| RustProject.Crate.AddConfigItem | src/gn/rust_project_writer_helpers_unittest.cc:22-23 | Appends the cfg item, unchanged, after the items already recorded; every other field is unchanged |
| RustProject.CrateList.constructor | src/gn/rust_project_writer_helpers_unittest.cc:18 | A new crate list is empty |
| RustProject.CrateList.PushBack | src/gn/rust_project_writer_helpers_unittest.cc:25-26 | Appends a copy of the crate's current value at the end of the list |
| RustProject.SysrootIndexMap.constructor | src/gn/rust_project_writer_helpers_unittest.cc:76 | A new sysroot lookup is empty |
| RustProject.SysrootIndexMap.Insert | src/gn/rust_project_writer_helpers_unittest.cc:76-79 | Records a sysroot crate name's id in the lookup, leaving the other entries as they were |
| RustProject.BuildTwoCrates | src/gn/rust_project_writer_helpers_unittest.cc:18-26 | The rendering test's list is exactly [tortoise with id 0 and no deps or cfg, hare with id 1, a dep on crate 0 named "tortoise" and cfg ["unix", the pre-escaped feature item]]; the list holds copies taken after the updates |
| CrateJson.TwoCrates | src/gn/rust_project_writer_helpers_unittest.cc:29-70 | Rendering that list gives exactly the 34 expected lines, from `{` through the roots and the two crate objects to `}` |
| CrateJson.WriteCrates | src/gn/rust_project_writer_helpers_unittest.cc:29-70 | The text put on the stream is the rendered lines, each followed by a newline. Its contract is carried by DocumentLayout, RootOfCrate, CrateObjectLayout, CratesInOrder, DepsInOrder, CfgInOrder and, for the test's list, TwoCrates |
| CrateJson.DirName | src/gn/rust_project_writer_helpers_unittest.cc:35-39 | The directory part of a path is a prefix of it that is empty or ends in '/', and no '/' follows it in the path |
| CrateJson.Decimal | src/gn/rust_project_writer_helpers_unittest.cc:42-52 | A crate id is written as at least one character, all of them decimal digits; DecimalRoundTrip shows they denote the id |
| CrateJson.DocumentLayout | src/gn/rust_project_writer_helpers_unittest.cc:35-68 | The document is `{`, the `"roots"` array with exactly one line per crate, then the `"crates"` array, then `}`: roots come before crates |
| CrateJson.RootOfCrate | src/gn/rust_project_writer_helpers_unittest.cc:35-39 | Root line k is the directory of crate k's root module, quoted, with its trailing slash; it is followed by a comma unless it is the last root. The directory is a prefix of the path that is empty or ends in '/', and no '/' follows it |
| CrateJson.RootInDirectory | src/gn/rust_project_writer_helpers_unittest.cc:35-39 | A crate whose root module is a file directly in a directory `dir` has `dir`, quoted, as its root line, followed by a comma unless it is the last |
| CrateJson.DirNameOfFile | src/gn/rust_project_writer_helpers_unittest.cc:19-37 | A directory ending in '/' followed by a file name without '/' has that directory as its directory part (`tortoise/lib.rs` gives `tortoise/`) |
| CrateJson.CrateObjectLayout | src/gn/rust_project_writer_helpers_unittest.cc:41-66 | A crate object has 10 lines plus 4 per dep and 1 per cfg item. Its fields come in the order crate_id, root_module, label, deps, edition, cfg; the values are quoted verbatim; an empty array is its opening and closing lines |
| CrateJson.CratesInOrder | src/gn/rust_project_writer_helpers_unittest.cc:40-67 | The lines of crate k come after those of crates 0..k-1 and before those of the later crates; crate k's object is followed by a comma unless it is the last |
| CrateJson.DepsInOrder | src/gn/rust_project_writer_helpers_unittest.cc:164-189 | Dependency k occupies lines 4k..4k+4 of the deps array as a `{crate, name}` object, in the order the edges were added; all but the last object are followed by a comma |
| CrateJson.CfgInOrder | src/gn/rust_project_writer_helpers_unittest.cc:62-65 | Cfg item k is line k of the cfg array, written verbatim between quotes, in the order the items were added, followed by a comma unless it is the last |
| CrateJson.DecimalRoundTrip | src/gn/rust_project_writer_helpers_unittest.cc:42-52 | The crate_id text is the decimal digits of the id: reading it back gives the id |
| CrateJson.DecimalInjective | src/gn/rust_project_writer_helpers_unittest.cc:42-52 | Distinct ids are written as distinct texts |
| CrateJson.FlattenSplit | src/gn/rust_project_writer_helpers_unittest.cc:41-66 | The lines of array entry k come after those of the entries before it and before those after it |
| RustProject.AddSysroot | src/gn/rust_project_writer_helpers_unittest.cc:76-79 | Over the 22 sysroot names in table order: a name the lookup already holds is skipped; otherwise the crate gets the next free id, is appended to the list and has its id recorded in the lookup. The end state is that of the fold `AddSysrootSpec` |
| RustProject.NewSysrootCrate | src/gn/rust_project_writer_helpers_unittest.cc:115-189 | A sysroot crate: root module under the sysroot, label = bare name, edition "2018", cfg ["debug_assertion"], and one edge per table dependency in table order, carrying the id the lookup gives that dependency |
| RustProject.AddSysrootSpec | src/gn/rust_project_writer_helpers_unittest.cc:114-377 | After the first n rounds, every one of the first n sysroot names is in the lookup |
| RustProject.SysrootDepsComeFirst | src/gn/rust_project_writer_helpers_unittest.cc:119-184 | Every dependency of sysroot crate i is among the names before it in the table, so its id is known when the crate is built |
| RustProject.AddSysrootKeepsInvariants | src/gn/rust_project_writer_helpers_unittest.cc:115-376 | From a list whose ids equal positions, whose dependency ids point backward and whose lookup names crates by their labels, the sysroot keeps all three and leaves the crates and ids already present unchanged |
| RustProject.SysrootStepKeepsInvariants | src/gn/rust_project_writer_helpers_unittest.cc:115-189 | One round of the sysroot loop keeps the same invariants and adds the name to the lookup |
| RustProject.SysrootOnEmpty | src/gn/rust_project_writer_helpers_unittest.cc:114-377 | On an empty list and lookup: exactly 22 crates with ids 0..21 in the order core, alloc, panic_abort, …, syntax. Alloc depends on core (id 0) and std on alloc, core, panic_abort, unwind (ids 1, 0, 2, 3); no other crate has deps. Ids equal positions, deps point backward, and the lookup gives every name its id |
| RustProject.SeedSysroot | src/gn/rust_project_writer_helpers_unittest.cc:73-79 | The sysroot test's list, built by the method, is exactly the expected 22 crates, with ids equal to positions and every dep id smaller than its crate's id |
| RustProject.SysrootRootDirectory | src/gn/rust_project_writer_helpers_unittest.cc:91-112 | The roots entry of a sysroot crate is build dir + sysroot + `/lib/rustlib/src/rust/src/lib` + name + `/` |
| RustProject.SysrootTestLibcRoot | src/gn/rust_project_writer_helpers_unittest.cc:202-203 | With build dir "out/Debug/" and sysroot "path", crate 6 (libc) has root module `out/Debug/path/lib/rustlib/src/rust/src/liblibc/lib.rs` |
| RustProject.FindFirst | src/gn/rust_project_writer_helpers_unittest.cc:383-441 | Returns the first position holding the flag, or none exactly when the flag is absent |
| RustProject.ExtractCompilerTargetTriple | src/gn/rust_project_writer_helpers_unittest.cc:383-441 | Returns the token right after the first "--target"; none when "--target" is absent or is the last flag; no index past the end is read |
| RustProject.TargetTripleSimple | src/gn/rust_project_writer_helpers_unittest.cc:394-401 | The test's flags give "x86-someos" |
| RustProject.TargetTripleMissing | src/gn/rust_project_writer_helpers_unittest.cc:415-421 | Flags without "--target" give none |
| RustProject.TargetTripleDontFallOffEnd | src/gn/rust_project_writer_helpers_unittest.cc:435-441 | A trailing "--target" gives none |
| CommandOutputs.RunOutputs | src/gn/command_outputs.cc:68-153 | The outcome is the specification `Outputs`. The status is 0 or 1, it is 0 exactly when there is no error, and a non-zero status prints none of the output paths (the error is reported instead) |
| CommandOutputs.Outputs | src/gn/command_outputs.cc:68-153 | The command's outcome: the status is 0 or 1, it is 0 exactly when no error is reported, and with status 1 no output path is printed. Its steps are stated by ShortArgumentsFail, NoMatchesFail, UnreferencedFileFails, OutputsOrder and FailingTargetFails |
| CommandOutputs.ShortArgumentsFail | src/gn/command_outputs.cc:69-75 | Fewer than two arguments give status 1 with the usage error, whatever the build holds, so before any setup |
| CommandOutputs.NoMatchesFail | src/gn/command_outputs.cc:96-99 | Inputs matching no targets and no files give status 1 with "The input matched no targets or files." |
| CommandOutputs.HandleFiles | src/gn/command_outputs.cc:107-132 | The loop over the matched files computes `FilesEffect`; it returns at the first file no target refers to |
| CommandOutputs.FilesFailIffUnreferenced | src/gn/command_outputs.cc:108-116 | The file loop fails if and only if some matched file is referenced by no target, and then it reports the first such file |
| CommandOutputs.UnreferencedFileFails | src/gn/command_outputs.cc:107-152 | The first unreferenced file makes the command fail with that file's error; none of the output paths found so far is printed |
| CommandOutputs.HandleRelations | src/gn/command_outputs.cc:119-131 | The loop over one file's referencing targets computes `RelationsEffect` |
| CommandOutputs.RelationsEffectSpec | src/gn/command_outputs.cc:119-131 | For one file: outputs gain exactly the per-source outputs of its `Sources` references, in order, with nothing from `Inputs` references. Target matches keep their old entries and order and gain exactly the `Inputs` targets. A duplicate-free match list stays duplicate-free |
| CommandOutputs.SourceOutputsSnoc | src/gn/command_outputs.cc:123-129 | The front-to-back reference for per-source outputs agrees with appending one relation at the end; a relation other than `Sources` adds nothing |
| CommandOutputs.PushUnique | src/gn/command_outputs.cc:120-122 | Pushing onto a unique vector adds the element at the end only when it is absent, and keeps the vector duplicate-free |
| CommandOutputs.Unique | src/gn/command_outputs.cc:86-92 | The resolver's unique vectors are duplicate-free and hold exactly the matched elements |
| CommandOutputs.HandleTargets | src/gn/command_outputs.cc:135-147 | The loop over the target matches computes `TargetsEffect`; it returns at the first target whose outputs fail |
| CommandOutputs.AppendRebased | src/gn/command_outputs.cc:145-146 | Appends every output of a target, in order, each rewritten relative to the build directory |
| CommandOutputs.Rebased | src/gn/command_outputs.cc:145-146 | Output k is the conversion of source file k, and there is one output per file |
| CommandOutputs.TargetsEffectSpec | src/gn/command_outputs.cc:133-147 | The target loop appends, after the existing outputs, every target's outputs in match order and each target's outputs in its own order. It fails exactly when the front-to-back reference does, with the first failing target's error |
| CommandOutputs.TargetsOutputsSnoc | src/gn/command_outputs.cc:133-147 | The front-to-back reference for target outputs agrees with appending one target at the end |
| CommandOutputs.OutputsOrder | src/gn/command_outputs.cc:104-152 | Once the files resolve, the command prints all file-derived outputs before all target-derived ones, with no deduplication, and exits 0. If the front-to-back reference of the targets' outputs fails, which by TargetsFailIffSomeFails happens exactly when some target fails, it exits 1 with the first failing target's error and prints none of the output paths |
| CommandOutputs.TargetsFailIffSomeFails | src/gn/command_outputs.cc:133-147 | The targets' outputs fail exactly when the outputs of some target cannot be computed, and then the error is the first failing target's |
| CommandOutputs.FailingTargetFails | src/gn/command_outputs.cc:133-147 | Any target the loop visits (the matched targets, then those that list a matched file as an input) whose outputs cannot be computed makes the command exit 1 with none of the output paths printed; the error reported is the first failing target's |
| CommandOutputs.FilesErrorSticks | src/gn/command_outputs.cc:110-115 | Once a file fails, the file loop's result is that failure |
| CommandOutputs.TargetsErrorSticks | src/gn/command_outputs.cc:138-142 | Once a target fails, the target loop's result is that failure |
| RustTargetValues.Ordinal | tools/gn/rust_values.h:23-28 | The four crate types have the values 0 to 3, and CRATE_AUTO is the one with value 0 |
| RustTargetValues.FromOrdinal | tools/gn/rust_values.h:23-28 | A value names a crate type exactly when it is below 4 |
| RustTargetValues.OrdinalRoundTrip | tools/gn/rust_values.h:23-28 | The value ↔ crate type mapping is a bijection between the four types and 0..3 |
| RustTargetValues.RustValues.constructor | tools/gn/rust_values.h:53-57 | The string fields start empty and there are no renamed deps; the initial crate type is left open |
| RustTargetValues.RustValues.CrateName | tools/gn/rust_values.h:31-32 | Reads the crate name; AssignCrateName and ConfigureFoo state that it returns what was last assigned |
| RustTargetValues.RustValues.CrateRoot | tools/gn/rust_values.h:35 | Reads the crate root; SetCrateRoot states that it returns what was last set |
| RustTargetValues.RustValues.GetCrateType | tools/gn/rust_values.h:39-40 | Reads the crate type; SetCrateType states that it returns what was last set |
| RustTargetValues.RustValues.Edition | tools/gn/rust_values.h:43-44 | Reads the edition; AssignEdition states that it returns what was last assigned |
| RustTargetValues.RustValues.RenamedDeps | tools/gn/rust_values.h:47-50 | Reads the rename map; RenameDep states how an assignment through the mutable reference changes it |
| RustTargetValues.RustValues.AssignCrateName | tools/gn/rust_values.h:31-32 | A name assigned through the mutable reference is what `crate_name()` then returns; every other field is unchanged |
| RustTargetValues.RustValues.SetCrateRoot | tools/gn/rust_values.h:35-36 | `crate_root()` returns the root just set; every other field is unchanged |
| RustTargetValues.RustValues.SetCrateType | tools/gn/rust_values.h:39-41 | `crate_type()` returns the type just set; every other field is unchanged |
| RustTargetValues.RustValues.AssignEdition | tools/gn/rust_values.h:43-44 | An edition assigned through the mutable reference is what `edition()` then returns; every other field is unchanged |
| RustTargetValues.RustValues.RenameDep | tools/gn/rust_values.h:47-57 | Assigning a rename for a dep label sets that entry and adds only that key. A second rename of the same label replaces the first, so there is one rename per label. Every other field is unchanged |
| RustTargetValues.ConfigureFoo | src/gn/rust_project_writer_helpers_unittest.cc:392-393 | The triple tests' target: after setting the crate root to `//foo/lib.rs` and assigning the crate name "foo", both getters return those values and nothing else changed |

## Left out

- `Setup::DoSetup` and `Setup::Run` (src/gn/command_outputs.cc:78-82) load the build files and run the multi-threaded scheduler. They are the `BuildGraph` field `setupSucceeds`; the build they load is the `BuildGraph` parameter.
- `ResolveFromCommandLineInput`, `GetTargetsContainingFile`, `GetOutputFilesForSource`, `GetOutputsAsSourceFiles` and the `OutputFile` conversion have bodies outside this model. They are uninterpreted `BuildGraph` fields. The config and toolchain matches the resolver also fills are dropped, because the command ignores them.
- The resolver's own duplicate handling is represented by `Unique` over the raw matches. The model asks nothing else of it.
- Printing: `printf` and `PrintToStdout` are the returned `printed` sequence and `error` value. `ErrorText` gives the messages' text. The help strings (src/gn/command_outputs.cc:17-66) are not modelled.
- RunOutputs: its loops are split into the helper methods `HandleFiles`, `HandleRelations`, `HandleTargets` and `AppendRebased`; the control flow is otherwise the same.
- WriteCrates: the `build_settings` argument is dropped; the tests' expected text does not depend on it. Output goes to a returned string instead of an `ostream`.
- AddSysroot: the build directory that the build settings supply ("out/Debug/" in the test) is a string parameter.
- SysrootOnEmpty: the full 22-crate text of the sysroot test is not restated character by character. The crate list is proved equal to `ExpectedSysroot`, and its rendering follows from the general layout lemmas. Only libc's root module (`SysrootTestLibcRoot`) is checked against a literal.
- The sysroot dependency table is given in emission order, which puts every crate after its dependencies. The helpers' own table is not part of this model.
- AddSysroot: a second call on a filled lookup skips the names already present, as the loop is written. No idempotence property is claimed, because the tests make one call only.
- ExtractCompilerTargetTriple: reads the target's own rustflags list. Collecting rustflags from the target's configs is not part of this model.
- `src/gn/rust_project_writer.h` (`RunAndWriteFiles`, `RenderJSON`, the dependency walk): declarations only, with their bodies not shown. Cycle handling in the dependency walk is not modelled either.
- The test scaffolding (`TestWithScope`, `TestWithScheduler`, the Windows line-ending replacement, building a `Target`) is not modelled.
- RustTargetValues.RustValues.RenameDep: models only assignment through the mutable `renamed_deps()` reference (`map[label] = name`). The other `std::map` operations a caller could apply through it, such as `erase` and an `insert` that keeps an existing entry, are not modelled.
- RustTargetValues.RustValues.constructor: leaves the initial `crate_type_` unconstrained, because its default is set in a constructor body that is not shown.
- `DISALLOW_COPY_AND_ASSIGN` and the destructor of `RustValues` have no counterpart.
