/**
 * The packaging step: options defaulting, and the `generateBundle` hook that
 * runs the pack command, obtains the package descriptor, names the archive and
 * moves it into the bundle's output directory, reporting any failure once
 * through the host's error channel.
 *
 * The shell command and the mover are options a caller may inject; the
 * descriptor reader is file-system I/O the plugin calls directly, taken here as
 * a parameter. Each is a function from its arguments to the outcome of the
 * call. What the hook does with them is recorded as a sequence of events.
 */
module Plugin {
  import opened Wrappers
  import opened PackFile
  import opened Paths

  /** The outcome of an awaited effect: it resolved, or it threw `message`. */
  datatype Outcome = Pass | Fail(message: string)

  type ShellCommand = string -> Outcome
  type Mover = (string, string) -> Outcome
  type PackageJsonReader = string -> Result<PackageJson, string>

  /** What the hook hands to the host's error channel. */
  datatype Fault =
    | Thrown(message: string)  // an effect threw; its error is passed on as it is
    | InvalidPathArgument      // `dirname` was given no path: neither `dir` nor `file` was set

  /** One observable step of the hook, in the order it happens. */
  datatype Event =
    | Command(cmd: string)             // the shell command was run with `cmd`
    | Read(rootDir: string)            // the descriptor was read starting from `rootDir`
    | Move(src: string, dst: string)   // the mover was called
    | Error(fault: Fault)              // the host's error channel was called

  /** The options a user may pass; `None` stands for a key left out. */
  datatype UserOptions = UserOptions(
    rootDir: Option<string>,
    packCommand: Option<string>,
    packageJson: Option<PackageJson>,
    mover: Option<Mover>,
    shellCommand: Option<ShellCommand>,
    outputDir: Option<string>)

  /** The process-level defaults: the working directory and the real effects. */
  datatype Environment = Environment(cwd: string, fsMove: Mover, execaCommand: ShellCommand)

  /** The options the hook works with, once the defaults are filled in. */
  datatype Options = Options(
    rootDir: string,
    packCommand: string,
    packageJson: Option<PackageJson>,
    mover: Mover,
    shellCommand: ShellCommand,
    outputDir: Option<string>)

  /** The bundler's output options: an output directory or an output file. */
  datatype OutputOptions = OutputOptions(dir: Option<string>, file: Option<string>)

  const DefaultPackCommand := "npm pack"

  /** The defaults, overridden key by key by whatever the user supplied. */
  function ResolveOptions(user: UserOptions, env: Environment): (o: Options)
    ensures o.rootDir == if user.rootDir.Some? then user.rootDir.value else env.cwd
    ensures o.packCommand == if user.packCommand.Some? then user.packCommand.value else DefaultPackCommand
    ensures o.packageJson == user.packageJson && o.outputDir == user.outputDir
    ensures o.mover == if user.mover.Some? then user.mover.value else env.fsMove
    ensures o.shellCommand == if user.shellCommand.Some? then user.shellCommand.value else env.execaCommand
  {
    Options(
      rootDir := user.rootDir.GetOr(env.cwd),
      packCommand := user.packCommand.GetOr(DefaultPackCommand),
      packageJson := user.packageJson,
      mover := user.mover.GetOr(env.fsMove),
      shellCommand := user.shellCommand.GetOr(env.execaCommand),
      outputDir := user.outputDir)
  }

  /** JavaScript truthiness of an optional string: present and not empty. */
  predicate Truthy(s: Option<string>) {
    s.Some? && s.value != ""
  }

  /** `outputOptions.dir || dirname(outputOptions.file)`. */
  function OutputDir(out: OutputOptions): Result<string, Fault> {
    if Truthy(out.dir) then Ok(out.dir.value)
    else if out.file.Some? then Ok(Dirname(out.file.value))
    else Err(InvalidPathArgument)
  }

  /** `options.packageJson || await readPackageJson(options.rootDir)`. */
  function Descriptor(opts: Options, read: PackageJsonReader): Result<PackageJson, string> {
    if opts.packageJson.Some? then Ok(opts.packageJson.value) else read(opts.rootDir)
  }

  /**
   * The recorder's events after one run of the hook that finds `log` already
   * recorded. Each stage appends what it does to the events before it, in the
   * order the hook awaits them; the first failure is appended as an `Error`
   * and ends the run.
   */
  function Run(log: seq<Event>, opts: Options, read: PackageJsonReader, out: OutputOptions): seq<Event> {
    var log := log + [Command(opts.packCommand)];
    match opts.shellCommand(opts.packCommand)
    case Fail(m) => log + [Error(Thrown(m))]
    case Pass => RunFromDescriptor(log, opts, read, out)
  }

  /** The read of the descriptor, which happens only when none was supplied. */
  function Asked(opts: Options): seq<Event> {
    if opts.packageJson.Some? then [] else [Read(opts.rootDir)]
  }

  /** The stages after the pack command has succeeded. */
  function RunFromDescriptor(log: seq<Event>, opts: Options, read: PackageJsonReader, out: OutputOptions): seq<Event> {
    var log := log + Asked(opts);
    match Descriptor(opts, read)
    case Err(m) => log + [Error(Thrown(m))]
    case Ok(pj) => RunFromMove(log, opts, PackFileName(pj), out)
  }

  /** The mover's two paths for an archive called `packfile` and output directory `dir`. */
  function MoveOf(opts: Options, packfile: string, dir: string): Event {
    Move(Join(opts.rootDir, packfile), Join(dir, packfile))
  }

  /** The stages once the archive is known to be called `packfile`. */
  function RunFromMove(log: seq<Event>, opts: Options, packfile: string, out: OutputOptions): seq<Event> {
    match OutputDir(out)
    case Err(f) => log + [Error(f)]
    case Ok(dir) =>
      var mv := MoveOf(opts, packfile, dir);
      var log := log + [mv];
      match opts.mover(mv.src, mv.dst)
      case Fail(m) => log + [Error(Thrown(m))]
      case Pass => log
  }

  /** The events of one run of the hook on its own. */
  function Trace(opts: Options, read: PackageJsonReader, out: OutputOptions): seq<Event> {
    Run([], opts, read, out)
  }

  /** A run adds its own events after whatever was recorded before, and changes nothing before them. */
  lemma RunAppends(log: seq<Event>, opts: Options, read: PackageJsonReader, out: OutputOptions)
    ensures Run(log, opts, read, out) == log + Trace(opts, read, out)
  {
  }

  lemma RunFromDescriptorAppends(log: seq<Event>, opts: Options, read: PackageJsonReader, out: OutputOptions)
    ensures RunFromDescriptor(log, opts, read, out) == log + RunFromDescriptor([], opts, read, out)
  {
  }

  lemma RunFromMoveAppends(log: seq<Event>, opts: Options, packfile: string, out: OutputOptions)
    ensures RunFromMove(log, opts, packfile, out) == log + RunFromMove([], opts, packfile, out)
  {
  }

  /** Whether every awaited step of the hook resolves. */
  predicate AllStepsSucceed(opts: Options, read: PackageJsonReader, out: OutputOptions) {
    && opts.shellCommand(opts.packCommand).Pass?
    && Descriptor(opts, read).Ok?
    && OutputDir(out).Ok?
    && var mv := MoveOf(opts, PackFileName(Descriptor(opts, read).value), OutputDir(out).value);
       opts.mover(mv.src, mv.dst).Pass?
  }

  /** The number of reports made to the host's error channel. */
  function Reports(t: seq<Event>): (n: nat)
    ensures n <= |t|
  {
    if t == [] then 0 else (if t[0].Error? then 1 else 0) + Reports(t[1..])
  }

  /** Records the calls made to the injected effects and to the host's error channel. */
  class Recorder {
    var events: seq<Event>

    constructor ()
      ensures events == []
    {
      events := [];
    }

    method Record(e: Event)
      modifies this
      ensures events == old(events) + [e]
    {
      events := events + [e];
    }
  }

  /**
   * The `generateBundle` hook: every step is awaited in turn, and the first
   * failure ends the run after being handed to the error channel.
   */
  method GenerateBundle(opts: Options, read: PackageJsonReader, out: OutputOptions, rec: Recorder)
    modifies rec
    ensures rec.events == Run(old(rec.events), opts, read, out)
    ensures rec.events == old(rec.events) + Trace(opts, read, out)
  {
    RunAppends(rec.events, opts, read, out);
    rec.Record(Command(opts.packCommand));
    var ran := opts.shellCommand(opts.packCommand);
    if ran.Fail? {
      rec.Record(Error(Thrown(ran.message)));
      return;
    }
    var pj: PackageJson;
    if opts.packageJson.Some? {
      pj := opts.packageJson.value;
    } else {
      rec.Record(Read(opts.rootDir));
      var got := read(opts.rootDir);
      if got.Err? {
        rec.Record(Error(Thrown(got.error)));
        return;
      }
      pj := got.value;
    }
    var packfile := PackFileName(pj);
    var outputDir := OutputDir(out);
    if outputDir.Err? {
      rec.Record(Error(outputDir.error));
      return;
    }
    var src, dst := Join(opts.rootDir, packfile), Join(outputDir.value, packfile);
    rec.Record(Move(src, dst));
    var moved := opts.mover(src, dst);
    if moved.Fail? {
      rec.Record(Error(Thrown(moved.message)));
    }
  }
}
