/**
 The flashcp driver: it writes a local image to an MTD partition of a remote
 target by creating a staging folder there (`mkdir -p`), transferring the
 image into it, and running the `flashcp` tool, with `-v` appended, on the staged copy
 and the partition's device node.

 The driver's collaborators (the image-path configuration, `os.path.abspath`,
 `check_file`, the command channel, the file-transfer channel and the process
 wrapper) are the function-valued fields of `Env`; each call's success or
 failure is what that function answers. Every remote effect the driver issues
 is recorded, in order, in the ghost `trace` of the driver object.
 */
module Flashcp {
  import opened Paths
  import opened Decimal

  datatype Option<T> = None | Some(value: T)

  /** The exceptions that can leave `load` or `__call__`. */
  datatype Exception =
    | ExecutionError(message: string)
    | StateError(message: string)
    | OtherError(kind: string, message: string)

  /** How a collaborator call (or a driver operation) ended: returned or raised. */
  datatype Status = Success | Failure(error: Exception)

  datatype Result<T> = Ok(value: T) | Err(error: Exception)

  /** The bound MTD partition resource: its number and the command prefix for the tool. */
  datatype MtdPartition = MtdPartition(index: int, commandPrefix: seq<string>)

  /** A remote effect: a shell command, a file transfer, or a tool invocation. */
  datatype Action =
    | Run(command: string)
    | Put(local: string, remote: string)
    | Exec(argv: seq<string>)

  /** The canonical text of a random UUID: 8-4-4-4-12 lower-case hex digits. */
  predicate IsUuidText(s: string)
  {
    |s| == 36 &&
    forall i | 0 <= i < |s| ::
      if i == 8 || i == 13 || i == 18 || i == 23 then s[i] == '-' else '0' <= s[i] <= '9' || 'a' <= s[i] <= 'f'
  }

  type UuidText = s: string | IsUuidText(s) witness "00000000-0000-0000-0000-000000000000"

  /** The driver's collaborators, each reduced to the answer it gives. */
  datatype Env = Env(
    imagePath: string -> Result<string>,    // target.env.config.get_image_path
    absPath: string -> string,              // os.path.abspath
    checkFile: string -> Status,            // common.check_file
    uuid: UuidText,                         // str(uuid4()) for this call
    runCheck: string -> Status,             // command.run_check
    put: (string, string) -> Status,        // filetransfer.put
    checkOutput: seq<string> -> Status)     // processwrapper.check_output

  /** The driver's attributes. */
  datatype Config = Config(image: Option<string>, tool: string, devfs: DirPath, mtdpartition: MtdPartition)

  const DefaultDevfs: DirPath := "/dev"
  const DefaultTool := "flashcp"
  const VerboseFlag := "-v"
  const StagingPrefix := "/tmp/image-"
  const NoSourceMessage := "At least one of 'filename' argument or driver 'image' attribute must supplied."
  const NotActive := StateError("driver has not been activated")

  /** `_get_flashcp_prefix`: the partition's command prefix, then the tool. */
  function FlashcpPrefix(mtdpartition: MtdPartition, tool: string): seq<string>
  {
    mtdpartition.commandPrefix + [tool]
  }

  /** The argument list `__call__` hands to the process wrapper. */
  function FlashArgv(mtdpartition: MtdPartition, tool: string, args: seq<string>): seq<string>
  {
    FlashcpPrefix(mtdpartition, tool) + (args + [VerboseFlag])
  }

  /** The device node of partition `index` under `devfs`: `{devfs}/mtd{index}`. */
  function DevicePath(devfs: DirPath, index: int): string
  {
    Join(devfs, "mtd" + IntToDecimal(index))
  }

  /** The remote staging folder for one `load`. */
  function StagingFolder(uuid: UuidText): DirPath
  {
    StagingPrefix + uuid
  }

  /** The staging folder is `/tmp/image-` and the id, which holds no '/'. */
  lemma StagingFolderShape(uuid: UuidText)
    ensures var r := StagingFolder(uuid);
      && |r| == |StagingPrefix| + 36 && r[..|StagingPrefix|] == StagingPrefix
      && r[|StagingPrefix|..] == uuid
      && '/' !in r[|StagingPrefix|..] && r[|r| - 1] != '/'
  {
    var r := StagingFolder(uuid);
    assert r[|StagingPrefix|..] == uuid;
  }

  function MkdirCommand(folder: string): string
  {
    "mkdir -p " + folder
  }

  /** Where the staged copy of `local` goes. */
  function RemoteFile(folder: DirPath, local: string): string
  {
    NameSpec(local);
    Join(folder, Name(local))
  }

  /** The file `load` uses before it is made absolute. */
  function ImageSource(filename: Option<string>, image: Option<string>, env: Env): Result<string>
  {
    if filename.None? && image.Some? then env.imagePath(image.value)
    else if filename.None? && image.None? then Err(ExecutionError(NoSourceMessage))
    else Ok(filename.value)
  }

  /** The three remote effects of a `load` of `local`, in the order they are issued. */
  function Plan(cfg: Config, local: string, uuid: UuidText): seq<Action>
  {
    var folder := StagingFolder(uuid);
    var remote := RemoteFile(folder, local);
    [ Run(MkdirCommand(folder)),
      Put(local, remote),
      Exec(FlashArgv(cfg.mtdpartition, cfg.tool, [remote, DevicePath(cfg.devfs, cfg.mtdpartition.index)])) ]
  }

  /** What an operation ends with and the remote effects it issued. */
  datatype Outcome = Outcome(status: Status, actions: seq<Action>)

  /** `__call__(*args)` on a driver that is (or is not) active. */
  function CallRun(active: bool, cfg: Config, args: seq<string>, checkOutput: seq<string> -> Status): Outcome
  {
    if !active then Outcome(Failure(NotActive), [])
    else
      var argv := FlashArgv(cfg.mtdpartition, cfg.tool, args);
      Outcome(checkOutput(argv), [Exec(argv)])
  }

  /** The remote part of `load`, once `local` has passed `check_file`. */
  function StageAndFlash(cfg: Config, local: string, env: Env): Outcome
  {
    var folder := StagingFolder(env.uuid);
    var remote := RemoteFile(folder, local);
    var mkdir := Run(MkdirCommand(folder));
    var made := env.runCheck(mkdir.command);
    if made.Failure? then Outcome(made, [mkdir])
    else
      var sent := env.put(local, remote);
      if sent.Failure? then Outcome(sent, [mkdir, Put(local, remote)])
      else
        var flashed := CallRun(true, cfg, [remote, DevicePath(cfg.devfs, cfg.mtdpartition.index)], env.checkOutput);
        Outcome(flashed.status, [mkdir, Put(local, remote)] + flashed.actions)
  }

  /** `load(filename)` on a driver that is (or is not) active. */
  function LoadRun(active: bool, cfg: Config, filename: Option<string>, env: Env): Outcome
  {
    if !active then Outcome(Failure(NotActive), [])
    else match ImageSource(filename, cfg.image, env)
      case Err(e) => Outcome(Failure(e), [])
      case Ok(source) =>
        var local := env.absPath(source);
        var checked := env.checkFile(local);
        if checked.Failure? then Outcome(checked, [])
        else StageAndFlash(cfg, local, env)
  }

  /**
   The tool's argv is the partition's command prefix, the tool, the caller's
   arguments and a trailing `-v`, which the driver appends exactly once.
   */
  lemma FlashArgvShape(mtdpartition: MtdPartition, tool: string, args: seq<string>)
    ensures var argv := FlashArgv(mtdpartition, tool, args);
      var n := |mtdpartition.commandPrefix|;
      && |argv| == n + |args| + 2
      && argv[..n] == mtdpartition.commandPrefix
      && argv[n] == tool
      && argv[n + 1..|argv| - 1] == args
      && argv[|argv| - 1] == VerboseFlag
      && multiset(argv)[VerboseFlag] == multiset(mtdpartition.commandPrefix + [tool] + args)[VerboseFlag] + 1
  {
    var argv := FlashArgv(mtdpartition, tool, args);
    assert argv == (mtdpartition.commandPrefix + [tool] + args) + [VerboseFlag];
  }

  /** The device node is the entry `mtd{index}` of the device root. */
  lemma DevicePathShape(devfs: DirPath, index: int)
    ensures IsEntryOf(DevicePath(devfs, index), devfs)
    ensures Name(DevicePath(devfs, index)) == "mtd" + IntToDecimal(index)
  {
    JoinIsEntry(devfs, "mtd" + IntToDecimal(index));
    NameOfJoin(devfs, "mtd" + IntToDecimal(index));
  }

  /** With the default device root, partition 3 is `/dev/mtd3`. */
  lemma DefaultDevicePath()
    ensures DevicePath(DefaultDevfs, 3) == "/dev/mtd3"
  {
    assert IntToDecimal(3) == "3";
  }

  /** Different partitions are never flashed through the same device node. */
  lemma DevicePathInjective(devfs: DirPath, i: int, j: int)
    requires DevicePath(devfs, i) == DevicePath(devfs, j)
    ensures i == j
  {
    DevicePathShape(devfs, i);
    DevicePathShape(devfs, j);
    var si, sj := "mtd" + IntToDecimal(i), "mtd" + IntToDecimal(j);
    assert si[3..] == IntToDecimal(i) && sj[3..] == IntToDecimal(j);
    IntToDecimalInjective(i, j);
  }

  /** Distinct ids give distinct staging folders. */
  lemma StagingFolderInjective(u: UuidText, v: UuidText)
    requires StagingFolder(u) == StagingFolder(v)
    ensures u == v
  {
    assert StagingFolder(u)[|StagingPrefix|..] == u;
    assert StagingFolder(v)[|StagingPrefix|..] == v;
  }

  /**
   Path agreement within one plan: the folder created is `/tmp/image-{uuid}`;
   the put destination is the flash source argument; it keeps the local
   file's name and is an entry of the created folder; the flash destination is
   the partition's device node, and `-v` comes last.
   */
  lemma PlanPaths(cfg: Config, local: string, uuid: UuidText)
    ensures var plan := Plan(cfg, local, uuid);
      var folder := StagingPrefix + uuid;
      var argv := plan[2].argv;
      && plan[0] == Run("mkdir -p " + folder)
      && plan[1].Put? && plan[1].local == local
      && plan[2].Exec? && |argv| >= 3
      && argv[..|argv| - 3] == FlashcpPrefix(cfg.mtdpartition, cfg.tool)
      && argv[|argv| - 3] == plan[1].remote
      && argv[|argv| - 2] == DevicePath(cfg.devfs, cfg.mtdpartition.index)
      && argv[|argv| - 1] == VerboseFlag
      && (Name(local) != [] ==> IsEntryOf(plan[1].remote, folder) && Name(plan[1].remote) == Name(local))
      && (Name(local) == [] ==> plan[1].remote == folder)
  {
    var folder := StagingFolder(uuid);
    NameSpec(local);
    if Name(local) != [] {
      JoinIsEntry(folder, Name(local));
      NameOfJoin(folder, Name(local));
    }
  }

  /**
   A remote effect is issued if and only if the driver is active, a file was
   resolved and its absolute path passed `check_file`. An inactive driver
   fails with a state error, a failed lookup or a failed `check_file` with
   that error, unchanged, and none of them issues anything.
   */
  lemma LoadValidatesFirst(active: bool, cfg: Config, filename: Option<string>, env: Env)
    ensures var src := ImageSource(filename, cfg.image, env);
      LoadRun(active, cfg, filename, env).actions != [] <==>
        active && src.Ok? && env.checkFile(env.absPath(src.value)) == Success
    ensures !active ==> LoadRun(active, cfg, filename, env) == Outcome(Failure(NotActive), [])
    ensures var src := ImageSource(filename, cfg.image, env);
      active && src.Err? ==> LoadRun(active, cfg, filename, env) == Outcome(Failure(src.error), [])
    ensures var src := ImageSource(filename, cfg.image, env);
      active && src.Ok? && env.checkFile(env.absPath(src.value)).Failure? ==>
        LoadRun(active, cfg, filename, env) == Outcome(env.checkFile(env.absPath(src.value)), [])
  {
  }

  /** Neither a filename nor a configured image: an `ExecutionError` and no remote effect. */
  lemma LoadWithoutSource(active: bool, cfg: Config, env: Env)
    requires active && cfg.image.None?
    ensures LoadRun(active, cfg, None, env) == Outcome(Failure(ExecutionError(NoSourceMessage)), [])
  {
  }

  /** An explicit filename is used as given: the configured image plays no part. */
  lemma LoadIgnoresImage(active: bool, cfg: Config, filename: string, image: Option<string>, env: Env)
    ensures LoadRun(active, cfg, Some(filename), env) == LoadRun(active, cfg.(image := image), Some(filename), env)
  {
  }

  /**
   Without a filename, the configured image is loaded as the file the
   configuration names for it; a lookup that raises ends the load with its
   error before anything remote happens.
   */
  lemma LoadUsesImagePath(active: bool, cfg: Config, env: Env)
    requires cfg.image.Some?
    ensures var found := env.imagePath(cfg.image.value);
      && (found.Ok? ==> LoadRun(active, cfg, None, env) == LoadRun(active, cfg, Some(found.value), env))
      && (found.Err? && active ==> LoadRun(active, cfg, None, env) == Outcome(Failure(found.error), []))
  {
  }

  /**
   Once validation has passed, the steps run in order and the first failure
   ends the load with that step's error, unchanged: a failed mkdir issues no
   put and no flash, a failed put issues no flash.
   */
  lemma LoadStopsAtFirstFailure(cfg: Config, filename: Option<string>, env: Env)
    requires ImageSource(filename, cfg.image, env).Ok?
    requires env.checkFile(env.absPath(ImageSource(filename, cfg.image, env).value)) == Success
    ensures var local := env.absPath(ImageSource(filename, cfg.image, env).value);
      var plan := Plan(cfg, local, env.uuid);
      var made := env.runCheck(plan[0].command);
      var sent := env.put(plan[1].local, plan[1].remote);
      var o := LoadRun(true, cfg, filename, env);
      && (made.Failure? ==> o == Outcome(made, plan[..1]))
      && (made.Success? && sent.Failure? ==> o == Outcome(sent, plan[..2]))
      && (made.Success? && sent.Success? ==> o == Outcome(env.checkOutput(plan[2].argv), plan))
  {
    var local := env.absPath(ImageSource(filename, cfg.image, env).value);
    var plan := Plan(cfg, local, env.uuid);
    assert plan[..1] == [plan[0]] && plan[..2] == [plan[0], plan[1]];
  }

  /**
   Whatever happens, the remote effects of a load are the first steps of the
   plan for its absolute file, in order; a load that returns normally ran the
   whole plan, exactly one mkdir, one put and one flash; and a load that
   stopped early did so because the last step it issued failed.
   */
  lemma {:induction false} LoadFollowsPlan(active: bool, cfg: Config, filename: Option<string>, env: Env)
    requires LoadRun(active, cfg, filename, env).actions != []
    ensures ImageSource(filename, cfg.image, env).Ok?
    ensures var local := env.absPath(ImageSource(filename, cfg.image, env).value);
      var plan := Plan(cfg, local, env.uuid);
      var o := LoadRun(active, cfg, filename, env);
      && 1 <= |o.actions| <= 3
      && o.actions == plan[..|o.actions|]
      && (o.status.Success? ==> o.actions == plan)
      && (|o.actions| < 3 ==> o.status.Failure?)
  {
    LoadValidatesFirst(active, cfg, filename, env);
    LoadStopsAtFirstFailure(cfg, filename, env);
  }

  /**
   A load that returns normally, on any inputs, resolved a file and issued
   exactly the plan for its absolute path: one mkdir, one put, one flash.
   */
  lemma LoadSucceedsByPlan(active: bool, cfg: Config, filename: Option<string>, env: Env)
    requires LoadRun(active, cfg, filename, env).status.Success?
    ensures ImageSource(filename, cfg.image, env).Ok?
    ensures LoadRun(active, cfg, filename, env).actions
      == Plan(cfg, env.absPath(ImageSource(filename, cfg.image, env).value), env.uuid)
  {
    LoadValidatesFirst(active, cfg, filename, env);
    LoadFollowsPlan(active, cfg, filename, env);
  }

  class FlashcpDriver {
    const image: Option<string>
    const tool: string
    const devfs: DirPath
    const mtdpartition: MtdPartition
    var active: bool
    /** Every remote effect this driver has issued, oldest first. */
    ghost var trace: seq<Action>

    function Settings(): Config
    {
      Config(image, tool, devfs, mtdpartition)
    }

    constructor (mtdpartition: MtdPartition, image: Option<string> := None, tool: string := DefaultTool)
      ensures Settings() == Config(image, tool, DefaultDevfs, mtdpartition)
      ensures !active && trace == []
    {
      this.image := image;
      this.tool := tool;
      this.devfs := DefaultDevfs;
      this.mtdpartition := mtdpartition;
      active := false;
      trace := [];
    }

    /** Activation by the target; the driver's own hook does nothing more. */
    method Activate()
      modifies this`active
      ensures active && trace == old(trace)
    {
      active := true;
    }

    /** Deactivation by the target; the driver's own hook does nothing more. */
    method Deactivate()
      modifies this`active
      ensures !active && trace == old(trace)
    {
      active := false;
    }

    /** `__call__(*args)`: run the tool on `args` followed by `-v`. */
    method Call(args: seq<string>, checkOutput: seq<string> -> Status) returns (status: Status)
      modifies this`trace
      ensures status == CallRun(active, Settings(), args, checkOutput).status
      ensures trace == old(trace) + CallRun(active, Settings(), args, checkOutput).actions
    {
      if !active {
        return Failure(NotActive);
      }
      var argList := args;
      argList := argList + [VerboseFlag];
      var argv := FlashcpPrefix(mtdpartition, tool) + argList;
      trace := trace + [Exec(argv)];
      status := checkOutput(argv);
    }

    /** `load(filename)`: stage the image on the target and flash it. */
    method Load(filename: Option<string>, env: Env) returns (status: Status)
      modifies this`trace
      ensures status == LoadRun(active, Settings(), filename, env).status
      ensures trace == old(trace) + LoadRun(active, Settings(), filename, env).actions
    {
      if !active {
        return Failure(NotActive);
      }
      var source: string;
      if filename.None? && image.Some? {
        var found := env.imagePath(image.value);
        if found.Err? {
          return Failure(found.error);
        }
        source := found.value;
      } else if filename.None? && image.None? {
        return Failure(ExecutionError(NoSourceMessage));
      } else {
        source := filename.value;
      }
      var local := env.absPath(source);
      assert ImageSource(filename, image, env) == Ok(source);
      status := env.checkFile(local);
      if status.Failure? {
        return;
      }
      ghost var staged := StageAndFlash(Settings(), local, env);
      assert LoadRun(active, Settings(), filename, env) == staged;
      var folder := StagingFolder(env.uuid);
      var remote := RemoteFile(folder, local);
      var command := MkdirCommand(folder);
      trace := trace + [Run(command)];
      assert trace == old(trace) + [Run(command)];
      status := env.runCheck(command);
      if status.Failure? {
        return;
      }
      trace := trace + [Put(local, remote)];
      assert trace == old(trace) + [Run(command), Put(local, remote)];
      status := env.put(local, remote);
      if status.Failure? {
        return;
      }
      status := Call([remote, DevicePath(devfs, mtdpartition.index)], env.checkOutput);
    }
  }
}
