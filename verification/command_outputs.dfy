/** The `outputs` command: it maps the files and targets named on the command
    line to the build outputs they produce and prints them, one per line, or
    exits with status 1 as soon as something cannot be resolved. The loaded
    build graph is a parameter; its queries are given as total functions. */
module CommandOutputs {
  import opened Wrappers
  import opened Paths
  type OutputFile = string

  /** A resolved target, known by its label with the toolchain included, as in
      `//foo:bar(//build/toolchain:linux)`: the same target in two toolchains
      is two distinct matches, which `PushUnique` and `Unique` keep apart. */
  datatype TargetRef = TargetRef(targetLabel: string)

  /** How a target refers to a file. Only `Sources` and `Inputs` matter here;
      every other kind of reference is `OtherRelation`. */
  datatype How = Sources | Inputs | OtherRelation

  datatype Relation = Relation(target: TargetRef, how: How)

  /** What the command-line inputs matched, as the resolver reports it. */
  datatype Matches = Matches(targets: seq<TargetRef>, files: seq<SourceFile>)

  /** The queries the command makes of the loaded build. */
  datatype BuildGraph = BuildGraph(
    /** Whether loading the build directory and running the build files succeeds. */
    setupSucceeds: string -> bool,
    /** Resolution of the inputs to targets and files; None on a resolution error. */
    resolve: seq<string> -> Option<Matches>,
    /** The targets referring to a file, with how each refers to it. */
    containing: SourceFile -> seq<Relation>,
    /** The outputs a target compiles one of its sources to (possibly none). */
    outputsForSource: (TargetRef, SourceFile) -> seq<OutputFile>,
    /** A target's own outputs, or the error computing them. */
    targetOutputs: TargetRef -> Result<seq<SourceFile>, string>,
    /** A source-relative output path rewritten relative to the build directory. */
    toOutputFile: SourceFile -> OutputFile)

  /** Why the command stopped with status 1. */
  datatype OutputsError =
    | Usage
    | SetupFailed
    | ResolveFailed
    | NoMatches
    | NoTargetsReference(file: SourceFile)
    | TargetOutputsFailed(message: string)

  /** The exit status, the output paths printed one per line, and the error
      reported instead, if any. */
  datatype Outcome = Outcome(status: int, printed: seq<OutputFile>, error: Option<OutputsError>)

  function ErrorText(e: OutputsError): string
  {
    match e
    case Usage => "Expected a build dir and one or more input files or targets.\nUsage: \"gn outputs <out_dir> <target-or-file>*\""
    case SetupFailed => ""
    case ResolveFailed => ""
    case NoMatches => "The input matched no targets or files."
    case NoTargetsReference(file) => "No targets reference the file '" + file + "'."
    case TargetOutputsFailed(message) => message
  }

  function Failure(e: OutputsError): Outcome
  {
    Outcome(1, [], Some(e))
  }

  // ---------------------------------------------------------------------------
  // Unique vectors

  predicate NoDups<T(==)>(xs: seq<T>)
  {
    forall i, j :: 0 <= i < j < |xs| ==> xs[i] != xs[j]
  }

  /** Appends `x` unless it is already present. */
  function PushUnique<T(==)>(xs: seq<T>, x: T): (r: seq<T>)
    ensures x in r
    ensures x in xs ==> r == xs
    ensures x !in xs ==> r == xs + [x]
    ensures NoDups(xs) ==> NoDups(r)
  {
    if x in xs then xs else xs + [x]
  }

  /** The unique vector built by pushing `xs` one after another. */
  function Unique<T(==, !new)>(xs: seq<T>): (r: seq<T>)
    ensures NoDups(r)
    ensures forall x :: x in r <==> x in xs
  {
    if xs == [] then [] else PushUnique(Unique(xs[..|xs| - 1]), xs[|xs| - 1])
  }

  // ---------------------------------------------------------------------------
  // The specification, one loop at a time

  /** Outputs and target matches after handling the relations of one file. */
  function RelationsEffect(g: BuildGraph, file: SourceFile, rels: seq<Relation>,
                           outputs: seq<OutputFile>, targets: seq<TargetRef>): (seq<OutputFile>, seq<TargetRef>)
  {
    if rels == [] then (outputs, targets)
    else
      var prev := RelationsEffect(g, file, rels[..|rels| - 1], outputs, targets);
      var rel := rels[|rels| - 1];
      match rel.how
      case Inputs => (prev.0, PushUnique(prev.1, rel.target))
      case Sources => (prev.0 + g.outputsForSource(rel.target, file), prev.1)
      case OtherRelation => prev
  }

  /** Outputs and target matches after the loop over the matched files, or the
      first file no target refers to. */
  function FilesEffect(g: BuildGraph, files: seq<SourceFile>,
                       outputs: seq<OutputFile>, targets: seq<TargetRef>): Result<(seq<OutputFile>, seq<TargetRef>), OutputsError>
  {
    if files == [] then Ok((outputs, targets))
    else
      match FilesEffect(g, files[..|files| - 1], outputs, targets)
      case Err(e) => Err(e)
      case Ok(prev) =>
        var file := files[|files| - 1];
        var rels := g.containing(file);
        if rels == [] then Err(NoTargetsReference(file))
        else Ok(RelationsEffect(g, file, rels, prev.0, prev.1))
  }

  /** The target's outputs rewritten relative to the build directory. */
  function Rebased(g: BuildGraph, files: seq<SourceFile>): (r: seq<OutputFile>)
    ensures |r| == |files|
    ensures forall i :: 0 <= i < |files| ==> r[i] == g.toOutputFile(files[i])
  {
    if files == [] then [] else Rebased(g, files[..|files| - 1]) + [g.toOutputFile(files[|files| - 1])]
  }

  /** The outputs after the loop over the target matches, or the first error. */
  function TargetsEffect(g: BuildGraph, targets: seq<TargetRef>, outputs: seq<OutputFile>): Result<seq<OutputFile>, OutputsError>
  {
    if targets == [] then Ok(outputs)
    else
      match TargetsEffect(g, targets[..|targets| - 1], outputs)
      case Err(e) => Err(e)
      case Ok(prev) =>
        match g.targetOutputs(targets[|targets| - 1])
        case Err(message) => Err(TargetOutputsFailed(message))
        case Ok(files) => Ok(prev + Rebased(g, files))
  }

  /** What the command does with arguments `args`: the build directory first,
      then the targets and files to look up. */
  function Outputs(g: BuildGraph, args: seq<string>): (r: Outcome)
    ensures r.status == 0 || r.status == 1
    ensures r.status == 0 <==> r.error.None?
    ensures r.status != 0 ==> r.printed == []
  {
    if |args| < 2 then Failure(Usage)
    else if !g.setupSucceeds(args[0]) then Failure(SetupFailed)
    else match g.resolve(args[1..])
      case None => Failure(ResolveFailed)
      case Some(m) =>
        var targets := Unique(m.targets);
        var files := Unique(m.files);
        if targets == [] && files == [] then Failure(NoMatches)
        else match FilesEffect(g, files, [], targets)
          case Err(e) => Failure(e)
          case Ok(afterFiles) =>
            match TargetsEffect(g, afterFiles.1, afterFiles.0)
            case Err(e) => Failure(e)
            case Ok(outputs) => Outcome(0, outputs, None)
  }

  /** Once a file fails, the loop over the files fails with that error. */
  lemma {:induction false} FilesErrorSticks(g: BuildGraph, files: seq<SourceFile>, n: nat,
                                            outputs: seq<OutputFile>, targets: seq<TargetRef>)
    requires n <= |files| && FilesEffect(g, files[..n], outputs, targets).Err?
    ensures FilesEffect(g, files, outputs, targets) == FilesEffect(g, files[..n], outputs, targets)
    decreases |files| - n
  {
    if n < |files| {
      assert files[..n + 1][..n] == files[..n];
      FilesErrorSticks(g, files, n + 1, outputs, targets);
    } else {
      assert files[..n] == files;
    }
  }

  /** Once a target fails, the loop over the targets fails with that error. */
  lemma {:induction false} TargetsErrorSticks(g: BuildGraph, targets: seq<TargetRef>, n: nat, outputs: seq<OutputFile>)
    requires n <= |targets| && TargetsEffect(g, targets[..n], outputs).Err?
    ensures TargetsEffect(g, targets, outputs) == TargetsEffect(g, targets[..n], outputs)
    decreases |targets| - n
  {
    if n < |targets| {
      assert targets[..n + 1][..n] == targets[..n];
      TargetsErrorSticks(g, targets, n + 1, outputs);
    } else {
      assert targets[..n] == targets;
    }
  }

  // ---------------------------------------------------------------------------
  // The command

  /** Handles the targets referring to one file, in the order they are given:
      an `Inputs` reference adds the target to the matches, a `Sources`
      reference appends that source's outputs. */
  method HandleRelations(g: BuildGraph, file: SourceFile, rels: seq<Relation>,
                         outputs: seq<OutputFile>, targets: seq<TargetRef>)
    returns (outputs': seq<OutputFile>, targets': seq<TargetRef>)
    ensures (outputs', targets') == RelationsEffect(g, file, rels, outputs, targets)
  {
    outputs', targets' := outputs, targets;
    var j := 0;
    while j < |rels|
      invariant 0 <= j <= |rels|
      invariant (outputs', targets') == RelationsEffect(g, file, rels[..j], outputs, targets)
    {
      var rel := rels[j];
      assert rels[..j + 1][..j] == rels[..j];
      if rel.how == Inputs {
        targets' := PushUnique(targets', rel.target);
      } else if rel.how == Sources {
        outputs' := outputs' + g.outputsForSource(rel.target, file);
      }
      j := j + 1;
    }
    assert rels[..j] == rels;
  }

  /** The loop over the matched files. */
  method HandleFiles(g: BuildGraph, files: seq<SourceFile>, targets: seq<TargetRef>)
    returns (r: Result<(seq<OutputFile>, seq<TargetRef>), OutputsError>)
    ensures r == FilesEffect(g, files, [], targets)
  {
    var outputs: seq<OutputFile> := [];
    var targetMatches := targets;
    var i := 0;
    while i < |files|
      invariant 0 <= i <= |files|
      invariant FilesEffect(g, files[..i], [], targets) == Ok((outputs, targetMatches))
    {
      var file := files[i];
      var rels := g.containing(file);
      assert files[..i + 1][..i] == files[..i];
      if rels == [] {
        FilesErrorSticks(g, files, i + 1, [], targets);
        return Err(NoTargetsReference(file));
      }
      outputs, targetMatches := HandleRelations(g, file, rels, outputs, targetMatches);
      i := i + 1;
    }
    assert files[..i] == files;
    return Ok((outputs, targetMatches));
  }

  /** Appends a target's outputs, each rewritten relative to the build directory. */
  method AppendRebased(g: BuildGraph, outputs: seq<OutputFile>, files: seq<SourceFile>)
    returns (outputs': seq<OutputFile>)
    ensures outputs' == outputs + Rebased(g, files)
  {
    outputs' := outputs;
    var n := 0;
    while n < |files|
      invariant 0 <= n <= |files|
      invariant outputs' == outputs + Rebased(g, files[..n])
    {
      assert files[..n + 1][..n] == files[..n];
      outputs' := outputs' + [g.toOutputFile(files[n])];
      n := n + 1;
    }
    assert files[..n] == files;
  }

  /** The loop over the target matches. */
  method HandleTargets(g: BuildGraph, targets: seq<TargetRef>, outputs: seq<OutputFile>)
    returns (r: Result<seq<OutputFile>, OutputsError>)
    ensures r == TargetsEffect(g, targets, outputs)
  {
    var acc := outputs;
    var k := 0;
    while k < |targets|
      invariant 0 <= k <= |targets|
      invariant TargetsEffect(g, targets[..k], outputs) == Ok(acc)
    {
      var target := targets[k];
      assert targets[..k + 1][..k] == targets[..k];
      var own := g.targetOutputs(target);
      if own.Err? {
        TargetsErrorSticks(g, targets, k + 1, outputs);
        return Err(TargetOutputsFailed(own.error));
      }
      acc := AppendRebased(g, acc, own.value);
      k := k + 1;
    }
    assert targets[..k] == targets;
    return Ok(acc);
  }

  /** The command: check the arguments, load the build, resolve the inputs,
      collect the outputs of the matched files and then of the matched
      targets, and print them only once everything has been resolved. */
  method RunOutputs(g: BuildGraph, args: seq<string>) returns (r: Outcome)
    ensures r == Outputs(g, args)
    ensures r.status == 0 || r.status == 1
    ensures r.status == 0 <==> r.error.None?
    ensures r.status != 0 ==> r.printed == []
  {
    if |args| < 2 {
      return Failure(Usage);
    }
    if !g.setupSucceeds(args[0]) {
      return Failure(SetupFailed);
    }
    var inputs := args[1..];
    var resolved := g.resolve(inputs);
    if resolved.None? {
      return Failure(ResolveFailed);
    }
    var targetMatches := Unique(resolved.value.targets);
    var fileMatches := Unique(resolved.value.files);
    if targetMatches == [] && fileMatches == [] {
      return Failure(NoMatches);
    }
    // Files go first: they may add to the target matches.
    var afterFiles := HandleFiles(g, fileMatches, targetMatches);
    if afterFiles.Err? {
      return Failure(afterFiles.error);
    }
    var outputs, targets := afterFiles.value.0, afterFiles.value.1;
    var afterTargets := HandleTargets(g, targets, outputs);
    if afterTargets.Err? {
      return Failure(afterTargets.error);
    }
    return Outcome(0, afterTargets.value, None);
  }

  // ---------------------------------------------------------------------------
  // Properties of the command

  /** Fewer than two arguments fail with the usage message before the build is
      loaded: the outcome does not depend on the build at all. */
  lemma ShortArgumentsFail(g: BuildGraph, g': BuildGraph, args: seq<string>)
    requires |args| < 2
    ensures Outputs(g, args) == Failure(Usage)
    ensures Outputs(g, args) == Outputs(g', args)
  {
  }

  /** Inputs matching neither a target nor a file fail, printing nothing. */
  lemma NoMatchesFail(g: BuildGraph, args: seq<string>)
    requires |args| >= 2 && g.setupSucceeds(args[0])
    requires g.resolve(args[1..]) == Some(Matches([], []))
    ensures Outputs(g, args) == Failure(NoMatches)
    ensures ErrorText(NoMatches) == "The input matched no targets or files."
  {
  }

  /** The loop over the files fails exactly when some file is referenced by no
      target, and then it reports the first such file. */
  lemma {:induction false} FilesFailIffUnreferenced(g: BuildGraph, files: seq<SourceFile>,
                                                    outputs: seq<OutputFile>, targets: seq<TargetRef>)
    ensures FilesEffect(g, files, outputs, targets).Err? <==>
            exists i :: 0 <= i < |files| && g.containing(files[i]) == []
    ensures forall i :: 0 <= i < |files| && g.containing(files[i]) == [] &&
                        (forall j :: 0 <= j < i ==> g.containing(files[j]) != []) ==>
              FilesEffect(g, files, outputs, targets) == Err(NoTargetsReference(files[i]))
  {
    if files != [] {
      var init := files[..|files| - 1];
      FilesFailIffUnreferenced(g, init, outputs, targets);
      assert forall i :: 0 <= i < |init| ==> init[i] == files[i];
    }
  }

  /** The first file no target refers to makes the whole command fail with
      status 1, printing none of the outputs found so far. */
  lemma UnreferencedFileFails(g: BuildGraph, args: seq<string>, i: nat)
    requires |args| >= 2 && g.setupSucceeds(args[0]) && g.resolve(args[1..]).Some?
    requires var files := Unique(g.resolve(args[1..]).value.files);
      i < |files| && g.containing(files[i]) == [] &&
      forall j :: 0 <= j < i ==> g.containing(files[j]) != []
    ensures Outputs(g, args) == Failure(NoTargetsReference(Unique(g.resolve(args[1..]).value.files)[i]))
  {
    var m := g.resolve(args[1..]).value;
    FilesFailIffUnreferenced(g, Unique(m.files), [], Unique(m.targets));
  }

  /** The outputs the `Sources` references of one file contribute, in order. */
  function SourceOutputs(g: BuildGraph, file: SourceFile, rels: seq<Relation>): seq<OutputFile>
  {
    if rels == [] then []
    else (if rels[0].how == Sources then g.outputsForSource(rels[0].target, file) else [])
         + SourceOutputs(g, file, rels[1..])
  }

  lemma {:induction false} SourceOutputsSnoc(g: BuildGraph, file: SourceFile, rels: seq<Relation>, rel: Relation)
    ensures SourceOutputs(g, file, rels + [rel])
         == SourceOutputs(g, file, rels) + (if rel.how == Sources then g.outputsForSource(rel.target, file) else [])
  {
    if rels == [] {
      assert [] + [rel] == [rel];
      assert [rel][1..] == [];
    } else {
      assert (rels + [rel])[1..] == rels[1..] + [rel];
      SourceOutputsSnoc(g, file, rels[1..], rel);
    }
  }

  /** Handling one file's references appends exactly the outputs of its
      `Sources` references, in order and without removing duplicates; an
      `Inputs` reference contributes no output of its own. The target matches
      keep their order and gain exactly the `Inputs` targets not yet present, so
      they never hold a target twice. */
  lemma {:induction false} RelationsEffectSpec(g: BuildGraph, file: SourceFile, rels: seq<Relation>,
                                               outputs: seq<OutputFile>, targets: seq<TargetRef>)
    ensures var r := RelationsEffect(g, file, rels, outputs, targets);
      r.0 == outputs + SourceOutputs(g, file, rels) &&
      |targets| <= |r.1| && r.1[..|targets|] == targets &&
      (NoDups(targets) ==> NoDups(r.1)) &&
      forall x :: x in r.1 <==>
        (x in targets || exists i :: 0 <= i < |rels| && rels[i] == Relation(x, Inputs))
  {
    if rels != [] {
      var init := rels[..|rels| - 1];
      var rel := rels[|rels| - 1];
      RelationsEffectSpec(g, file, init, outputs, targets);
      assert rels == init + [rel];
      SourceOutputsSnoc(g, file, init, rel);
      var prev := RelationsEffect(g, file, init, outputs, targets);
      var r := RelationsEffect(g, file, rels, outputs, targets);
      assert r.1 == prev.1 || r.1 == prev.1 + [rel.target];
      assert r.1[..|targets|] == prev.1[..|targets|];
      forall x | x in r.1
        ensures x in targets || exists i :: 0 <= i < |rels| && rels[i] == Relation(x, Inputs)
      {
        if x !in prev.1 {
          assert rels[|rels| - 1] == Relation(x, Inputs);
        } else if x !in targets {
          var i :| 0 <= i < |init| && init[i] == Relation(x, Inputs);
          assert rels[i] == Relation(x, Inputs);
        }
      }
      forall x | x in targets || exists i :: 0 <= i < |rels| && rels[i] == Relation(x, Inputs)
        ensures x in r.1
      {
        if x !in targets {
          var i :| 0 <= i < |rels| && rels[i] == Relation(x, Inputs);
          if i < |init| {
            assert init[i] == Relation(x, Inputs);
          }
        }
      }
    }
  }

  /** A reference definition of the targets' outputs, target after target from
      the front: the first target whose outputs cannot be computed decides the error. */
  function TargetsOutputs(g: BuildGraph, targets: seq<TargetRef>): Result<seq<OutputFile>, OutputsError>
  {
    if targets == [] then Ok([])
    else match g.targetOutputs(targets[0])
      case Err(message) => Err(TargetOutputsFailed(message))
      case Ok(files) =>
        match TargetsOutputs(g, targets[1..])
        case Err(e) => Err(e)
        case Ok(rest) => Ok(Rebased(g, files) + rest)
  }

  lemma {:induction false} TargetsOutputsSnoc(g: BuildGraph, targets: seq<TargetRef>, t: TargetRef)
    ensures TargetsOutputs(g, targets + [t]) ==
      match TargetsOutputs(g, targets)
      case Err(e) => Err(e)
      case Ok(xs) =>
        match g.targetOutputs(t)
        case Err(message) => Err(TargetOutputsFailed(message))
        case Ok(files) => Ok(xs + Rebased(g, files))
  {
    if targets == [] {
      assert [] + [t] == [t];
      assert [t][1..] == [];
      match g.targetOutputs(t)
      case Err(message) =>
      case Ok(files) =>
        assert Rebased(g, files) + [] == [] + Rebased(g, files);
    } else {
      assert (targets + [t])[0] == targets[0];
      assert (targets + [t])[1..] == targets[1..] + [t];
      TargetsOutputsSnoc(g, targets[1..], t);
      match g.targetOutputs(targets[0])
      case Err(message) =>
      case Ok(files) =>
        match TargetsOutputs(g, targets[1..])
        case Err(e) =>
        case Ok(rest) =>
          match g.targetOutputs(t)
          case Err(message) =>
          case Ok(last) =>
            assert Rebased(g, files) + (rest + Rebased(g, last)) == (Rebased(g, files) + rest) + Rebased(g, last);
    }
  }

  /** The loop over the targets appends, after the outputs already found, the
      outputs of every target in match order, each target's in its own order;
      it fails instead exactly when the reference definition does. */
  lemma {:induction false} TargetsEffectSpec(g: BuildGraph, targets: seq<TargetRef>, outputs: seq<OutputFile>)
    ensures TargetsEffect(g, targets, outputs) ==
      match TargetsOutputs(g, targets)
      case Err(e) => Err(e)
      case Ok(xs) => Ok(outputs + xs)
  {
    if targets == [] {
      assert outputs + [] == outputs;
    } else {
      var init := targets[..|targets| - 1];
      var t := targets[|targets| - 1];
      TargetsEffectSpec(g, init, outputs);
      assert targets == init + [t];
      TargetsOutputsSnoc(g, init, t);
      match TargetsOutputs(g, init)
      case Err(e) =>
      case Ok(xs) =>
        match g.targetOutputs(t)
        case Err(message) =>
        case Ok(files) =>
          assert (outputs + xs) + Rebased(g, files) == outputs + (xs + Rebased(g, files));
    }
  }

  /** On success the command prints the outputs of the matched files first,
      then those of the targets, and exits with status 0; any failure prints
      nothing and exits with status 1. */
  lemma OutputsOrder(g: BuildGraph, args: seq<string>)
    requires |args| >= 2 && g.setupSucceeds(args[0]) && g.resolve(args[1..]).Some?
    requires var m := g.resolve(args[1..]).value;
      (m.targets != [] || m.files != []) &&
      FilesEffect(g, Unique(m.files), [], Unique(m.targets)).Ok?
    ensures var m := g.resolve(args[1..]).value;
      var afterFiles := FilesEffect(g, Unique(m.files), [], Unique(m.targets)).value;
      var r := Outputs(g, args);
      match TargetsOutputs(g, afterFiles.1)
      case Err(e) => r == Failure(e)
      case Ok(xs) => r == Outcome(0, afterFiles.0 + xs, None)
  {
    var m := g.resolve(args[1..]).value;
    var afterFiles := FilesEffect(g, Unique(m.files), [], Unique(m.targets)).value;
    TargetsEffectSpec(g, afterFiles.1, afterFiles.0);
    if m.targets != [] {
      assert m.targets[0] in Unique(m.targets);
    } else {
      assert m.files[0] in Unique(m.files);
    }
  }

  /** The targets fail exactly when the outputs of some target cannot be
      computed, and then the error of the first such target is reported. */
  lemma {:induction false} TargetsFailIffSomeFails(g: BuildGraph, targets: seq<TargetRef>)
    ensures TargetsOutputs(g, targets).Err? <==>
            exists i :: 0 <= i < |targets| && g.targetOutputs(targets[i]).Err?
    ensures forall i :: 0 <= i < |targets| && g.targetOutputs(targets[i]).Err? &&
                        (forall j :: 0 <= j < i ==> g.targetOutputs(targets[j]).Ok?) ==>
              TargetsOutputs(g, targets) == Err(TargetOutputsFailed(g.targetOutputs(targets[i]).error))
  {
    if targets != [] {
      var rest := targets[1..];
      TargetsFailIffSomeFails(g, rest);
      assert forall i :: 0 <= i < |rest| ==> rest[i] == targets[i + 1];
      if g.targetOutputs(targets[0]).Ok? {
        forall i | 0 <= i < |targets| && g.targetOutputs(targets[i]).Err?
          ensures TargetsOutputs(g, targets).Err?
        {
          assert 0 <= i - 1 < |rest| && g.targetOutputs(rest[i - 1]).Err?;
        }
        forall i | 0 <= i < |targets| && g.targetOutputs(targets[i]).Err? &&
                   (forall j :: 0 <= j < i ==> g.targetOutputs(targets[j]).Ok?)
          ensures TargetsOutputs(g, targets) == Err(TargetOutputsFailed(g.targetOutputs(targets[i]).error))
        {
          assert rest[i - 1] == targets[i];
          assert forall j :: 0 <= j < i - 1 ==> rest[j] == targets[j + 1];
        }
      }
    }
  }

  /** A matched target whose outputs cannot be computed makes the command exit
      with status 1 and print none of the outputs; the first such target's
      error is the one reported. */
  lemma FailingTargetFails(g: BuildGraph, args: seq<string>, i: nat)
    requires |args| >= 2 && g.setupSucceeds(args[0]) && g.resolve(args[1..]).Some?
    requires var m := g.resolve(args[1..]).value;
      (m.targets != [] || m.files != []) &&
      FilesEffect(g, Unique(m.files), [], Unique(m.targets)).Ok?
    requires var m := g.resolve(args[1..]).value;
      var targets := FilesEffect(g, Unique(m.files), [], Unique(m.targets)).value.1;
      i < |targets| && g.targetOutputs(targets[i]).Err?
    ensures Outputs(g, args).status == 1 && Outputs(g, args).printed == []
    ensures var m := g.resolve(args[1..]).value;
      var targets := FilesEffect(g, Unique(m.files), [], Unique(m.targets)).value.1;
      (forall j :: 0 <= j < i ==> g.targetOutputs(targets[j]).Ok?) ==>
        Outputs(g, args) == Failure(TargetOutputsFailed(g.targetOutputs(targets[i]).error))
  {
    var m := g.resolve(args[1..]).value;
    var targets := FilesEffect(g, Unique(m.files), [], Unique(m.targets)).value.1;
    OutputsOrder(g, args);
    TargetsFailIffSomeFails(g, targets);
  }
}
