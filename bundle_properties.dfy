/**
 * What one run of the `generateBundle` hook promises, stated over the events
 * it records: the order of the steps, the paths handed to the mover, and the
 * single report of a failure.
 */
module BundleProperties {
  import opened Wrappers
  import opened PackFile
  import opened Paths
  import opened Plugin

  /**
   * The five traces a run can produce, one per way it can end: the command
   * fails, the descriptor cannot be had, there is no output location, the
   * mover fails, or everything succeeds.
   */
  lemma TraceCases(opts: Options, read: PackageJsonReader, out: OutputOptions)
    ensures var cmd := [Command(opts.packCommand)];
      opts.shellCommand(opts.packCommand).Fail? ==>
      Trace(opts, read, out) == cmd + [Error(Thrown(opts.shellCommand(opts.packCommand).message))]
    ensures var cmd := [Command(opts.packCommand)];
      opts.shellCommand(opts.packCommand).Pass? && Descriptor(opts, read).Err? ==>
      Trace(opts, read, out) == cmd + Asked(opts) + [Error(Thrown(Descriptor(opts, read).error))]
    ensures var cmd := [Command(opts.packCommand)];
      opts.shellCommand(opts.packCommand).Pass? && Descriptor(opts, read).Ok? && OutputDir(out).Err? ==>
      Trace(opts, read, out) == cmd + Asked(opts) + [Error(OutputDir(out).error)]
    ensures var cmd := [Command(opts.packCommand)];
      opts.shellCommand(opts.packCommand).Pass? && Descriptor(opts, read).Ok? && OutputDir(out).Ok? ==>
      var mv := MoveOf(opts, PackFileName(Descriptor(opts, read).value), OutputDir(out).value);
      Trace(opts, read, out)
      == cmd + Asked(opts)
         + if opts.mover(mv.src, mv.dst).Fail? then [mv, Error(Thrown(opts.mover(mv.src, mv.dst).message))] else [mv]
  {
    CommandStage(opts, read, out);
    DescriptorStage(opts, read, out);
    if Descriptor(opts, read).Ok? {
      MoveCases(opts, PackFileName(Descriptor(opts, read).value), out);
    }
  }

  lemma CommandStage(opts: Options, read: PackageJsonReader, out: OutputOptions)
    ensures opts.shellCommand(opts.packCommand).Fail? ==>
      Trace(opts, read, out)
      == [Command(opts.packCommand), Error(Thrown(opts.shellCommand(opts.packCommand).message))]
    ensures opts.shellCommand(opts.packCommand).Pass? ==>
      Trace(opts, read, out) == [Command(opts.packCommand)] + RunFromDescriptor([], opts, read, out)
  {
    RunFromDescriptorAppends([] + [Command(opts.packCommand)], opts, read, out);
  }

  lemma DescriptorStage(opts: Options, read: PackageJsonReader, out: OutputOptions)
    ensures Descriptor(opts, read).Err? ==>
      RunFromDescriptor([], opts, read, out) == Asked(opts) + [Error(Thrown(Descriptor(opts, read).error))]
    ensures Descriptor(opts, read).Ok? ==>
      RunFromDescriptor([], opts, read, out)
      == Asked(opts) + RunFromMove([], opts, PackFileName(Descriptor(opts, read).value), out)
  {
    if Descriptor(opts, read).Ok? {
      RunFromMoveAppends(Asked(opts), opts, PackFileName(Descriptor(opts, read).value), out);
    }
  }

  lemma MoveCases(opts: Options, packfile: string, out: OutputOptions)
    ensures OutputDir(out).Err? ==> RunFromMove([], opts, packfile, out) == [Error(OutputDir(out).error)]
    ensures OutputDir(out).Ok? ==>
      var mv := MoveOf(opts, packfile, OutputDir(out).value);
      RunFromMove([], opts, packfile, out)
      == if opts.mover(mv.src, mv.dst).Fail? then [mv, Error(Thrown(opts.mover(mv.src, mv.dst).message))] else [mv]
  {
  }

  /** The pack command runs first, with `packCommand` verbatim, and is never run again. */
  lemma CommandRunsFirstAndOnce(opts: Options, read: PackageJsonReader, out: OutputOptions)
    ensures var t := Trace(opts, read, out);
      && 2 <= |t| <= 4
      && t[0] == Command(opts.packCommand)
      && forall k :: 0 < k < |t| ==> !t[k].Command?
  {
    TraceCases(opts, read, out);
  }

  /** A failing pack command is reported, and nothing is read or moved after it. */
  lemma CommandFailureStops(opts: Options, read: PackageJsonReader, out: OutputOptions)
    requires opts.shellCommand(opts.packCommand).Fail?
    ensures Trace(opts, read, out)
         == [Command(opts.packCommand), Error(Thrown(opts.shellCommand(opts.packCommand).message))]
  {
    TraceCases(opts, read, out);
  }

  /**
   * The error channel is called exactly once when some step fails and never
   * when all succeed, and that call is the last thing the hook does.
   */
  lemma ErrorReportedOnce(opts: Options, read: PackageJsonReader, out: OutputOptions)
    ensures var t := Trace(opts, read, out);
      && Reports(t) == (if AllStepsSucceed(opts, read, out) then 0 else 1)
      && (forall k :: 0 <= k < |t| - 1 ==> !t[k].Error?)
      && (t[|t| - 1].Error? <==> !AllStepsSucceed(opts, read, out))
  {
    TraceCases(opts, read, out);
    var t := Trace(opts, read, out);
    assert !t[0].Error?;
    assert Reports(t) == Reports(t[1..]);
    if |t| >= 3 {
      assert !t[1].Error? ==> Reports(t[1..]) == Reports(t[2..]);
    }
    if |t| == 4 {
      assert !t[2].Error?;
      assert Reports(t[2..]) == Reports(t[3..]);
    }
  }

  /** A run that reports nothing ends with the move, so a move is never followed by more work. */
  lemma SuccessEndsWithMove(opts: Options, read: PackageJsonReader, out: OutputOptions)
    requires AllStepsSucceed(opts, read, out)
    ensures var t := Trace(opts, read, out);
      var packfile := PackFileName(Descriptor(opts, read).value);
      t[|t| - 1] == MoveOf(opts, packfile, OutputDir(out).value)
  {
    TraceCases(opts, read, out);
  }

  /**
   * The mover is called at most once, exactly when the command ran, the
   * descriptor was obtained and an output directory could be resolved; no
   * error report ever comes before it.
   */
  lemma MoveOnlyAfterEarlierSteps(opts: Options, read: PackageJsonReader, out: OutputOptions)
    ensures var t := Trace(opts, read, out);
      && ((exists k :: 0 <= k < |t| && t[k].Move?)
          <==> opts.shellCommand(opts.packCommand).Pass? && Descriptor(opts, read).Ok? && OutputDir(out).Ok?)
      && (forall i, j :: 0 <= i < |t| && 0 <= j < |t| && t[i].Move? && t[j].Move? ==> i == j)
      && (forall i, j :: 0 <= i < j < |t| && t[j].Move? ==> !t[i].Error?)
  {
    TraceCases(opts, read, out);
    var t := Trace(opts, read, out);
    if opts.shellCommand(opts.packCommand).Pass? && Descriptor(opts, read).Ok? && OutputDir(out).Ok? {
      assert t[|Asked(opts)| + 1].Move?;
    }
  }

  /**
   * The mover's source is the archive under `rootDir`, and its destination the
   * archive under `dir` when that is set and not empty, else under the
   * directory of `file`.
   */
  lemma MovePaths(opts: Options, read: PackageJsonReader, out: OutputOptions, k: nat)
    requires k < |Trace(opts, read, out)| && Trace(opts, read, out)[k].Move?
    ensures Descriptor(opts, read).Ok?
    ensures var packfile := PackFileName(Descriptor(opts, read).value);
      var mv := Trace(opts, read, out)[k];
      && mv.src == Join(opts.rootDir, packfile)
      && (Truthy(out.dir) ==> mv.dst == Join(out.dir.value, packfile))
      && (!Truthy(out.dir) ==> out.file.Some? && mv.dst == Join(Dirname(out.file.value), packfile))
  {
    TraceCases(opts, read, out);
  }

  /** The source path does not depend on the output options at all. */
  lemma MoveSourceIgnoresOutputOptions(opts: Options, read: PackageJsonReader,
                                       out1: OutputOptions, out2: OutputOptions, k1: nat, k2: nat)
    requires k1 < |Trace(opts, read, out1)| && Trace(opts, read, out1)[k1].Move?
    requires k2 < |Trace(opts, read, out2)| && Trace(opts, read, out2)[k2].Move?
    ensures Trace(opts, read, out1)[k1].src == Trace(opts, read, out2)[k2].src
  {
    MovePaths(opts, read, out1, k1);
    MovePaths(opts, read, out2, k2);
  }

  /**
   * With `file` set to `dir/name`, the archive lands in `dir`: the
   * destination is the archive name joined onto the directory of the file.
   */
  lemma FileOutputLandsBesideFile(opts: Options, read: PackageJsonReader, dir: string, name: string, k: nat)
    requires dir != "" && dir[|dir| - 1] != '/' && '/' !in name
    requires var out := OutputOptions(None, Some(Join(dir, name)));
      k < |Trace(opts, read, out)| && Trace(opts, read, out)[k].Move?
    ensures var out := OutputOptions(None, Some(Join(dir, name)));
      Descriptor(opts, read).Ok?
      && Trace(opts, read, out)[k].dst == Join(dir, PackFileName(Descriptor(opts, read).value))
  {
    var out := OutputOptions(None, Some(Join(dir, name)));
    MovePaths(opts, read, out, k);
    DirnameOfJoin(dir, name);
  }

  /** Neither `dir` nor `file`: `dirname` throws after the command ran, and no move is attempted. */
  lemma MissingOutputLocationReported(opts: Options, read: PackageJsonReader, out: OutputOptions)
    requires opts.shellCommand(opts.packCommand).Pass? && Descriptor(opts, read).Ok?
    requires !Truthy(out.dir) && out.file.None?
    ensures Trace(opts, read, out) == [Command(opts.packCommand)] + Asked(opts) + [Error(InvalidPathArgument)]
  {
    TraceCases(opts, read, out);
  }

  /** A supplied descriptor is used as it is: nothing is read, whatever the reader would do. */
  lemma SuppliedDescriptorSkipsRead(opts: Options, read1: PackageJsonReader, read2: PackageJsonReader,
                                    out: OutputOptions)
    requires opts.packageJson.Some?
    ensures Trace(opts, read1, out) == Trace(opts, read2, out)
    ensures forall k :: 0 <= k < |Trace(opts, read1, out)| ==> !Trace(opts, read1, out)[k].Read?
  {
    TraceCases(opts, read1, out);
    TraceCases(opts, read2, out);
  }

  /** Without a supplied descriptor, it is read from `rootDir` right after the command succeeds. */
  lemma ReadFollowsCommand(opts: Options, read: PackageJsonReader, out: OutputOptions)
    requires opts.packageJson.None? && opts.shellCommand(opts.packCommand).Pass?
    ensures |Trace(opts, read, out)| >= 3 && Trace(opts, read, out)[1] == Read(opts.rootDir)
    ensures read(opts.rootDir).Err? ==>
      Trace(opts, read, out) == [Command(opts.packCommand), Read(opts.rootDir), Error(Thrown(read(opts.rootDir).error))]
  {
    TraceCases(opts, read, out);
  }

  /**
   * A failing mover is reported once and nothing is retried: the command ran
   * once and the move was attempted once.
   */
  lemma MoverFailureReportedOnce(opts: Options, read: PackageJsonReader, out: OutputOptions)
    requires opts.shellCommand(opts.packCommand).Pass? && Descriptor(opts, read).Ok? && OutputDir(out).Ok?
    requires var packfile := PackFileName(Descriptor(opts, read).value);
      var mv := MoveOf(opts, packfile, OutputDir(out).value);
      opts.mover(mv.src, mv.dst).Fail?
    ensures var packfile := PackFileName(Descriptor(opts, read).value);
      var mv := MoveOf(opts, packfile, OutputDir(out).value);
      Trace(opts, read, out)
      == [Command(opts.packCommand)] + Asked(opts) + [mv, Error(Thrown(opts.mover(mv.src, mv.dst).message))]
  {
    TraceCases(opts, read, out);
  }

  /** The `outputDir` option is accepted but never consulted. */
  lemma OutputDirOptionIgnored(opts: Options, read: PackageJsonReader, out: OutputOptions, outputDir: Option<string>)
    ensures Trace(opts.(outputDir := outputDir), read, out) == Trace(opts, read, out)
  {
    TraceCases(opts, read, out);
    TraceCases(opts.(outputDir := outputDir), read, out);
  }

  /** The default pack command is `npm pack`; a configured one reaches the shell verbatim. */
  lemma PackCommandChoice(user: UserOptions, env: Environment, read: PackageJsonReader, out: OutputOptions)
    ensures var t := Trace(ResolveOptions(user, env), read, out);
      t[0] == Command(if user.packCommand.Some? then user.packCommand.value else "npm pack")
  {
    CommandRunsFirstAndOnce(ResolveOptions(user, env), read, out);
  }

  /**
   * A scoped package with a supplied descriptor, an output directory and
   * effects that all resolve: the command runs, then the archive
   * `scope-pkg-version.tgz` moves from `rootDir` to `dir`, and nothing is reported.
   */
  lemma ScopedPackageMovedToDir(opts: Options, read: PackageJsonReader,
                                scope: string, pkg: string, version: string, dir: string)
    requires '/' !in scope && dir != ""
    requires opts.packageJson == Some(PackageJson("@" + scope + "/" + pkg, version))
    requires opts.shellCommand(opts.packCommand).Pass?
    requires var f := scope + "-" + pkg + "-" + version + ".tgz";
      opts.mover(Join(opts.rootDir, f), Join(dir, f)).Pass?
    ensures var f := scope + "-" + pkg + "-" + version + ".tgz";
      Trace(opts, read, OutputOptions(Some(dir), None))
      == [Command(opts.packCommand), Move(Join(opts.rootDir, f), Join(dir, f))]
  {
    ScopedPackFileName(scope, pkg, version);
    TraceCases(opts, read, OutputOptions(Some(dir), None));
  }

  /**
   * An unscoped package with a supplied descriptor and an output file
   * `dir/name`: the archive `name-version.tgz` moves from `rootDir` to `dir`.
   */
  lemma UnscopedPackageMovedBesideFile(opts: Options, read: PackageJsonReader,
                                       pkg: string, version: string, dir: string, name: string)
    requires '@' !in pkg && '/' !in pkg
    requires dir != "" && dir[|dir| - 1] != '/' && '/' !in name
    requires opts.packageJson == Some(PackageJson(pkg, version))
    requires opts.shellCommand(opts.packCommand).Pass?
    requires var f := pkg + "-" + version + ".tgz";
      opts.mover(Join(opts.rootDir, f), Join(dir, f)).Pass?
    ensures var f := pkg + "-" + version + ".tgz";
      Trace(opts, read, OutputOptions(None, Some(Join(dir, name))))
      == [Command(opts.packCommand), Move(Join(opts.rootDir, f), Join(dir, f))]
  {
    UnscopedPackFileName(pkg, version);
    DirnameOfJoin(dir, name);
    TraceCases(opts, read, OutputOptions(None, Some(Join(dir, name))));
  }
}
