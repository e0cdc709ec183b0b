# labgrid flashcp driver, modelled in Dafny

labgrid's `FlashcpDriver` writes a local image to an MTD partition of a
remote target. It resolves which local file to use: the `filename` argument,
or else the driver's configured `image` looked up through the environment
configuration. It makes that path absolute and checks the file. Then it
creates a staging folder `/tmp/image-{uuid}` on the target with `mkdir -p`,
puts the file into that folder, and runs `flashcp` on the staged copy and the
partition's device node `{devfs}/mtd{index}`, always appending `-v` to the
tool's arguments. The first failing step ends the load, and its
exception reaches the caller unchanged.

The model has three modules:

- `Paths` (`paths.dfy`): the parts of POSIX `pathlib` the driver uses.
  These are `PurePosixPath.name` (`Name`) and `joinpath` of one component
  (`Join`), together with the fact that a joined entry keeps its name.
- `Decimal` (`decimal.dfy`): Python's `str` of an integer, as used in the
  f-string `mtd{index}`. A parser is proved to invert it, so distinct
  partitions get distinct device nodes.
- `Flashcp` (`flashcp.dfy`): the driver itself.
  - The class `FlashcpDriver` has the driver's attributes and its activation
    state. Its ghost `trace` records every remote effect it issues:
    `Run(command)`, `Put(local, remote)` and `Exec(argv)`.
  - `Call` (`__call__`) and `Load` (`load`) are imperative methods. Each is
    proved against a pure specification (`CallRun`, `LoadRun`) that gives
    the resulting status and the actions appended to the trace.
  - The lemmas state the driver's promises about those specifications.
  - `Plan` is the reference sequence mkdir, put, flash for a given file.

The collaborators are fields of type `Env`, each a function giving the
collaborator's answer:

- `get_image_path`, which answers a path or raises;
- `os.path.abspath` and `check_file`;
- the id from `uuid4()`, a canonical UUID text;
- the command channel's `run_check`, the transfer channel's `put` and
  `processwrapper.check_output`.

A collaborator that raises is a `Failure(e)` status. The driver hands `e`
back as it is.

## Model

| member | source | states |
|---|---|---|
| `Flashcp.FlashcpDriver.constructor` | labgrid/driver/flashcpdriver.py:26-36 | `image` defaults to none and `tool` to `"flashcp"`. The device root is `/dev`. A new driver is inactive and has issued nothing. |
| `Flashcp.FlashcpDriver.Activate` | labgrid/driver/flashcpdriver.py:41-42 | Activating sets the driver active and issues no remote effect. |
| `Flashcp.FlashcpDriver.Deactivate` | labgrid/driver/flashcpdriver.py:44-45 | Deactivating clears the active flag and issues no remote effect. |
| `Flashcp.FlashcpDriver.Call` | labgrid/driver/flashcpdriver.py:47-54 | An inactive driver raises a state error and runs nothing. Otherwise the trace grows by exactly one tool invocation, whose argv is given by `FlashArgv`, and the process wrapper's status is returned unchanged. |
| `Flashcp.FlashcpDriver.Load` | labgrid/driver/flashcpdriver.py:56-76 | The returned status and the actions appended to the trace are exactly those of `LoadRun`. The lemmas below state what `LoadRun` guarantees. |
| `Flashcp.FlashArgvShape` | labgrid/driver/flashcpdriver.py:49-53 | The argv is the partition's command prefix, then the tool, then the caller's arguments, then `-v`. `-v` is last, and the argv holds exactly one more `-v` than the command prefix, tool and arguments hold together. |
| `Flashcp.StagingFolderShape` | labgrid/driver/flashcpdriver.py:67 | The staging folder is `/tmp/image-` followed by exactly the id, so it is 47 characters long. The id part contains no `/`, and the folder does not end in `/`. |
| `Flashcp.StagingFolderInjective` | labgrid/driver/flashcpdriver.py:67 | Distinct ids give distinct staging folders. |
| `Flashcp.DevicePathShape` | labgrid/driver/flashcpdriver.py:75 | The flash destination is a direct entry of the device root, named `mtd` followed by the decimal index. |
| `Flashcp.DefaultDevicePath` | labgrid/driver/flashcpdriver.py:18 | With the default root `/dev`, partition 3 is `/dev/mtd3`. |
| `Flashcp.DevicePathInjective` | labgrid/driver/flashcpdriver.py:75 | Two partition indices that give the same device node are equal. |
| `Flashcp.PlanPaths` | labgrid/driver/flashcpdriver.py:67-75 | The mkdir command creates `/tmp/image-{uuid}`. The put sends the checked local file. The put destination is the flash source argument. That path keeps the local file's name and is an entry of the created folder. The flash destination is the device node, and `-v` is last. |
| `Flashcp.LoadValidatesFirst` | labgrid/driver/flashcpdriver.py:59-71 | A load issues a remote effect if and only if three things hold: the driver is active, a file was resolved, and its absolute path passed `check_file`. An inactive driver fails with a state error. A lookup that raises, or a `check_file` that raises, ends the load with that error unchanged. None of these cases issues anything. |
| `Flashcp.LoadWithoutSource` | labgrid/driver/flashcpdriver.py:61-64 | On an active driver with no filename and no configured image, the load raises `ExecutionError` with the source's message and issues no remote effect. |
| `Flashcp.LoadIgnoresImage` | labgrid/driver/flashcpdriver.py:58-65 | When a filename is given, the outcome does not depend on the configured image. |
| `Flashcp.LoadUsesImagePath` | labgrid/driver/flashcpdriver.py:59-60 | Without a filename, loading the configured image gives the same outcome as loading the path `get_image_path(image)` returns, given explicitly. On an active driver, if the lookup raises, the load fails with that error and issues nothing. |
| `Flashcp.LoadStopsAtFirstFailure` | labgrid/driver/flashcpdriver.py:70-76 | After validation, a failed mkdir ends the load with its own error after that one action. A failed put ends it with its own error, with no flash issued. Otherwise all three steps are issued, and the flash's status is returned. |
| `Flashcp.LoadFollowsPlan` | labgrid/driver/flashcpdriver.py:66-76 | The remote effects of any load that issued a remote effect are the first one to three steps of the plan for its absolute file, in order. A load that returns normally issued exactly one mkdir, one put and one flash. A load that issued fewer failed. |
| `Flashcp.LoadSucceedsByPlan` | labgrid/driver/flashcpdriver.py:58-76 | On any inputs, a load that returns normally resolved a file and issued exactly the plan for its absolute path: one mkdir, one put and one flash, in that order. |
| `Paths.StripTrailingSlashesSpec` | labgrid/driver/flashcpdriver.py:68 | The result is the longest prefix that does not end in `/`. Only `/` characters are dropped. |
| `Paths.AfterLastSlashSpec` | labgrid/driver/flashcpdriver.py:68 | The result is the suffix after the last `/`, and it contains no `/`. |
| `Paths.NameSpec` | labgrid/driver/flashcpdriver.py:68 | `Path(p).name` contains no `/` and does not end in `/`. |
| `Paths.JoinIsEntry` | labgrid/driver/flashcpdriver.py:68 | Joining `""` leaves the folder unchanged. Joining a non-empty name gives a direct entry of the folder that starts with the folder's own text. |
| `Paths.NameOfEntry` | labgrid/driver/flashcpdriver.py:68 | The name of a direct entry is the text after the folder's prefix. |
| `Paths.NameOfJoin` | labgrid/driver/flashcpdriver.py:68 | Joining a name onto a folder and then taking the result's name gives back that name. |
| `Decimal.NatToDecimal` | labgrid/driver/flashcpdriver.py:75 | The result is non-empty, all digits, and has no leading zero. |
| `Decimal.IntToDecimal` | labgrid/driver/flashcpdriver.py:75 | `str(i)` starts with `-` exactly when `i` is negative. The rest is digits. |
| `Decimal.ParseNatToDecimal` | labgrid/driver/flashcpdriver.py:75 | Parsing the digits of `n` gives `n`. |
| `Decimal.ParseIntToDecimal` | labgrid/driver/flashcpdriver.py:75 | Parsing `str(i)` gives `i`. |
| `Decimal.IntToDecimalInjective` | labgrid/driver/flashcpdriver.py:75 | Distinct integers have distinct decimal texts. |

## Left out

- Real I/O is not modelled: process execution, the SSH and command channel, and file transfer. Each call is an action appended to the trace, and its success or failure is an input.
- `print_on_silent_log=True` in `__call__` is not modelled. It keeps the tool's output visible when logging is silenced. That is an output effect of the process wrapper, and the `Exec` action does not record it.
- Failure output is not modelled. Any output a failing tool captures belongs to the process wrapper, which is not part of this model. The model only guarantees that the raised exception is returned unchanged.
- `uuid4()` randomness is not modelled; the id is an input. Nothing in this code shows that ids differ between calls, so only "distinct ids give distinct folders" is proved.
- The internals of `check_file`, `os.path.abspath` and `get_image_path` are not modelled. They live in files outside this model and are opaque functions here. `check_file` and `get_image_path` may raise, and their errors are passed on.
- `os.path.abspath` is assumed never to raise. The model gives it no error path.
- `Driver.check_active` belongs to the `Driver` base class, which is not part of this model. Here it is a `StateError` returned before any work when the driver is inactive, and its exact message text is not modelled.
- Driver registration (`target_factory.reg_driver`), the `bindings` table, the `@step` decorator, the debug log line and attrs type validators are left out. They are plumbing or tracing; Dafny's types already enforce what the validators check.
- The pathlib model assumes normalised directories. It does not drop `.` components, collapse repeated `/`, or strip a trailing `/` from a directory before joining. `Join` and the device-path lemmas are stated for any non-empty root, but they match pathlib only for a normalised one. The paths handled here are `abspath` output, a staging folder and the default root `/dev`, and all of those are normalised.
- `Flashcp.PlanPaths`: for the file `/` the name is empty, so the put destination is the staging folder itself. `PlanPaths` states this case separately. Whether `check_file` accepts such a path is not part of this model.
- labgrid/util/host.py is a record whose attributes are only type-checked, so it has no behaviour to model.
