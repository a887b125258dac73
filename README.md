# Phalcon devtools artifact builders, modelled in Dafny

This project models the four code generators of `Phalcon\Builder`: the
controller, job, logic and task builders. Each builder has two steps.

- Its constructor checks the options for a `name` and gives `force` a default.
- Its `build()` method does the following:
  1. resolves the namespace, the base class and any `use` lines;
  2. resolves the output directory and the class name;
  3. lays out the target path;
  4. creates the subdirectory;
  5. renders a fixed PHP class skeleton with tabs expanded to four spaces;
  6. refuses to overwrite an existing file unless `force` is contained;
  7. writes the file and returns its name.

Layout:

- `php_strings.dfy` (module `PhpStrings`) models the PHP string functions the builders use: `str_replace` of one character, `rtrim`/`ltrim` with a character list, and `implode`.
- `builder.dfy` (module `Builder`) holds what the four builders share:
  - the options bag and the constructor;
  - the configuration sections;
  - the collaborators that are outside the modelled builders (as fields of `Env`);
  - the namespace and use-block rendering, console-directory handling and tab expansion;
  - the resolved `ArtifactPlan` of one build;
  - the filesystem `State`.

  It also defines the effect of writing a plan (`Outcome`), with its lemmas, and the `Workspace` class. The class holds the mutable project tree and carries out that effect step by step (`Emit`).
- `controller.dfy`, `job.dfy`, `logic.dfy` and `task.dfy` (modules `ControllerBuilder`, `JobBuilder`, `LogicBuilder`, `TaskBuilder`) each model one builder. Each has:
  - a pure `Plan` that resolves everything `build()` computes before touching the disk, with the precedence rules and error cases in its contract;
  - `Code`, the rendered skeleton, with a `CodeShape` lemma that spells it out after tab expansion;
  - `ReturnedNameLocatesFile`, which connects the returned name to the written file;
  - `Build`, a method on a `Workspace` whose result and new state are exactly `Outcome` of the plan.

The four builders are modelled separately because they differ:

- **Subdirectory.** Logic camelizes the subdirectory with `camelize`; the controller uses `camelizeWithSlash`. The job uses the raw subdirectory for its path. Task never reads `subdir`.
- **Config presence tests.** Each configuration lookup has its own PHP test:
  - namespace: every builder accepts a configured namespace only when it is not `empty`;
  - base class: Controller and Task use `empty`, Job uses `isset`, and Logic uses truthiness;
  - output directory: Controller uses `empty`; Job, Logic and Task use `isset`.

Options are a `map<string, string>` that holds PHP scalars in their string form: false is "", and a null entry is an absent key. `Options::contains` is outside the modelled builders, so it is modelled as an abstract predicate of the key and that key's entry (`Env.contains`).

## Per-builder details

These are easy to miss, and the model keeps each of them.

- **Job path.** The job builder uses the raw subdirectory, not a camelized one, as the directory segment (scripts/Phalcon/Builder/Job.php:129). Only the namespace suffix is camelized (line 85).
- **Logic subdirectory.** The logic builder normalises the subdirectory with `Utils::camelize`, not `camelizeWithSlash` (scripts/Phalcon/Builder/Logic.php:75).
- **Logic namespace option.** An accepted `namespace` option produces a namespace line even when it is empty, and that line never carries the subdirectory (scripts/Phalcon/Builder/Logic.php:79-81). Task does the same (scripts/Phalcon/Builder/Task.php:70-72). The controller and job builders ignore an empty option instead.
- **Logic extends.** The logic builder writes ` extends ` even when the base class is empty, which yields `class X extends` followed by the body (`LogicBuilder.BareExtends`).
- **Task subdirectory.** Task ignores `subdir` completely (`TaskBuilder.SubdirIgnored`).
- **Force guard.** The existing-file guard tests whether a `force` key is contained, not its value. Every constructor inserts the key when it is missing. So if `contains` means "the key has a non-null entry", the guard never fires and an existing target is overwritten (`Builder.ForceGuardInert`).

## Model

| member | source | states |
|---|---|---|
| PhpStrings.Replace | scripts/Phalcon/Builder/Controller.php:123 | str_replace of one character: the replaced character is gone when the replacement does not contain it, and a string without it is unchanged |
| PhpStrings.ReplaceAppend | scripts/Phalcon/Builder/Controller.php:148 | str_replace distributes over concatenation, so tab expansion can be done piece by piece |
| PhpStrings.ReplaceByChar | scripts/Phalcon/Builder/Controller.php:123 | replacing a character by a character keeps the length and maps each position independently |
| PhpStrings.TrimRight | scripts/Phalcon/Builder/Controller.php:132 | rtrim: the result is a prefix of the input, does not end in a cut character, and only cut characters were removed |
| PhpStrings.TrimLeft | scripts/Phalcon/Builder/Controller.php:129 | ltrim: the result is a suffix of the input, does not start with a cut character, and only cut characters were removed |
| PhpStrings.Join | scripts/Phalcon/Builder/Controller.php:144 | implode: starts with the first part and ends with the last; a single part is returned unchanged and two parts are joined by the separator |
| PhpStrings.JoinAppendPart | scripts/Phalcon/Builder/Controller.php:144 | appending a part to a non-empty list appends the separator and that part to the imploded string |
| Builder.Construct | scripts/Phalcon/Builder/Controller.php:42-53 | fails with a missing-name error exactly when `name` is unset; otherwise keeps every option, adds exactly the key `force`, and sets it to false when it was unset (the same in all four builders) |
| Builder.BaseNamespace | scripts/Phalcon/Builder/Controller.php:78-85 | controller/job namespace precedence: an accepted non-empty option wins, else a non-empty configured namespace, and the result is empty exactly when neither applies |
| Builder.NamespaceOptionApplies | scripts/Phalcon/Builder/Controller.php:80 | the `namespace` option is accepted exactly when it is contained and passes checkNamespace |
| Builder.OptionalNamespaceLine | scripts/Phalcon/Builder/Controller.php:91-93 | controller and job: exactly `namespace <ns>;` followed by two PHP_EOLs when the resolved namespace is non-empty, and nothing exactly when it is empty |
| Builder.NamespaceLine | scripts/Phalcon/Builder/Controller.php:92 | the line starts with `namespace <ns>;`, ends with two PHP_EOLs, and has nothing else in it |
| Builder.UseBlock | scripts/Phalcon/Builder/Controller.php:141-145 | no use lines give an empty block; one line gives that line and two PHP_EOLs; two lines are joined by a newline and followed by two PHP_EOLs; in general the block starts with the first use line and ends with the last one followed by two PHP_EOLs |
| Builder.UseLine | scripts/Phalcon/Builder/Controller.php:105 | `use App\<segment>\<base>;` and nothing else; the segment is `Controllers` here, `Jobs` in Job.php:99 and `Logics` in Logic.php:98 |
| Builder.Underscored | scripts/Phalcon/Builder/Controller.php:123 | the name with every space turned into `_`, position by position, and no space left |
| Builder.ConsoleDir | scripts/Phalcon/Builder/Controller.php:128-130 | outside console mode, or without a `../` prefix, the directory is unchanged; otherwise all leading `.` and `/` are stripped and nothing else |
| Builder.Exists | scripts/Phalcon/Builder/Controller.php:150 | file_exists: true exactly when the path is a file or a directory of the state |
| Builder.Outcome | scripts/Phalcon/Builder/Controller.php:65-169 | the root becomes the `directory` option when contained; a plan error is returned as is; a success means the plan resolved, the write went through, and the returned name is the planned file name; the planned folder exists afterwards |
| Builder.ExpandTabs | scripts/Phalcon/Builder/Controller.php:148 | the expanded code contains no tab, and tab-free text is unchanged |
| Builder.ExpandTabsAppend | scripts/Phalcon/Builder/Controller.php:148 | tab expansion distributes over concatenation |
| Builder.ExpandTab | scripts/Phalcon/Builder/Controller.php:148 | one tab becomes four spaces |
| Builder.PlanErrorTouchesNothing | scripts/Phalcon/Builder/Controller.php:110-121 | a missing output directory or name ends the build with that error before any directory is created or file written |
| Builder.SuccessWritesPlan | scripts/Phalcon/Builder/Controller.php:150-169 | a successful build wrote exactly the planned code at the planned path, created at most the planned folder, and returned the planned file name |
| Builder.AllowedBuildSucceeds | scripts/Phalcon/Builder/Controller.php:150-169 | with no existing target or with `force` contained, a target that is not a directory and a successful fwrite, the build returns the file name and the target holds the code |
| Builder.NoRefusalWithoutTarget | scripts/Phalcon/Builder/Controller.php:150-152 | a target that does not exist is never refused as already existing |
| Builder.FailureKeepsFiles | scripts/Phalcon/Builder/Controller.php:150-160 | every failure except a failed fwrite leaves all files as they were |
| Builder.ExistingTargetRefused | scripts/Phalcon/Builder/Controller.php:150-152 | without `force` an existing target (file or directory) is refused and no file changes, though the subdirectory may have been created |
| Builder.FolderCreated | scripts/Phalcon/Builder/Controller.php:134-140 | the planned subdirectory exists after the build, whatever its result |
| Builder.SecondBuildRefused | scripts/Phalcon/Builder/Controller.php:150-152 | repeating a successful build without `force` is refused and changes nothing |
| Builder.ForcedRebuildIdempotent | scripts/Phalcon/Builder/Controller.php:150-160 | with `force`, repeating a successful build succeeds again and leaves the same state |
| Builder.ForceGuardInert | scripts/Phalcon/Builder/Controller.php:48-50 | if contains means a non-null entry, the inserted `force` key makes every constructed option set pass the `name` check and never hit the existing-file guard |
| Builder.Workspace.SetRootPath | scripts/Phalcon/Builder/Controller.php:65-67 | only the root path changes |
| Builder.Workspace.MakeDir | scripts/Phalcon/Builder/Controller.php:136-138 | adds the directory and changes nothing else |
| Builder.Workspace.OpenAndWrite | scripts/Phalcon/Builder/Controller.php:154-160 | opening a directory or an unopenable path fails with no change; a failed fwrite leaves the target truncated; otherwise the target holds the text |
| Builder.Workspace.Emit | scripts/Phalcon/Builder/Controller.php:65-169 | root, mkdir, guard and write carried out in place, with result and new state equal to Outcome of the plan |
| ControllerBuilder.Subdir | scripts/Phalcon/Builder/Controller.php:70-76 | empty when `subdir` is not contained or is empty; otherwise camelizeWithSlash of the option with `/` |
| ControllerBuilder.Namespace | scripts/Phalcon/Builder/Controller.php:78-93 | empty exactly when the base namespace is; qualified by camelizeWithSlash(subdir, '\\') only when both are non-empty |
| ControllerBuilder.ControllersDir | scripts/Phalcon/Builder/Controller.php:110-117 | the option, else a non-empty configured directory; missing exactly when both are empty |
| ControllerBuilder.BaseClass | scripts/Phalcon/Builder/Controller.php:96-103 | base-class precedence: a non-empty option wins, else `\Phalcon\Mvc\Controller` for an empty configuration, else the configured class |
| ControllerBuilder.Uses | scripts/Phalcon/Builder/Controller.php:103-107 | at most one use line, present exactly when the configured base class is used with a subdirectory, naming that class |
| ControllerBuilder.Code | scripts/Phalcon/Builder/Controller.php:147-148 | the rendered controller contains no tab |
| ControllerBuilder.Plan | scripts/Phalcon/Builder/Controller.php:110-148 | error cases in order (no directory, then no name); class and file name from the underscored name; namespace line, base class and uses as resolved above; the `dir[/subdir]/<Class>Controller.php` layout with the folder to create |
| ControllerBuilder.CodeShape | scripts/Phalcon/Builder/Controller.php:147-148 | the code is `<?php`, the namespace and use lines, `class <Class>Controller extends <base>` and an empty indexAction indented by four spaces |
| ControllerBuilder.ReturnedNameLocatesFile | scripts/Phalcon/Builder/Controller.php:132-169 | the returned name ends in `Controller.php` and, joined to the directory and subdirectory, names the file that now holds the code |
| ControllerBuilder.Build | scripts/Phalcon/Builder/Controller.php:59-170 | result and new workspace are Outcome of ControllerBuilder.Plan |
| JobBuilder.Subdir | scripts/Phalcon/Builder/Job.php:70-73 | the raw `subdir` option when contained, else empty; never camelized |
| JobBuilder.Namespace | scripts/Phalcon/Builder/Job.php:75-90 | empty exactly when the base namespace is; qualified by the camelized raw subdirectory only when both are non-empty |
| JobBuilder.JobsDir | scripts/Phalcon/Builder/Job.php:104-111 | the option, else a configured directory that is set at all; missing exactly when neither is |
| JobBuilder.BaseClass | scripts/Phalcon/Builder/Job.php:92-97 | base-class precedence: a non-empty option wins, else a configured class that is set at all (isset), else no base class |
| JobBuilder.Uses | scripts/Phalcon/Builder/Job.php:97-141 | the JobInterface line is always last; a base-class line precedes it exactly when requested |
| JobBuilder.Extends | scripts/Phalcon/Builder/Job.php:142-145 | the extends clause is empty exactly when the base class is, and otherwise is ` extends <base>` |
| JobBuilder.UsesBaseLine | scripts/Phalcon/Builder/Job.php:94-99 | the base-class use line is requested exactly when no `baseClass` option is given, the configured base class is set (isset) and a subdirectory is given; the resolved base class is then the configured one |
| JobBuilder.Code | scripts/Phalcon/Builder/Job.php:146-147 | the rendered job contains no tab |
| JobBuilder.Plan | scripts/Phalcon/Builder/Job.php:104-146 | error cases in order; class name and `<Class>.php`; namespace line and base class as resolved above; uses with the base-class line exactly for a configured base class and a subdirectory; the path with the raw subdirectory |
| JobBuilder.CodeShape | scripts/Phalcon/Builder/Job.php:146-147 | the code is `<?php`, namespace and use lines, `class <Class>[ extends <base>] implements JobInterface` and an empty body |
| JobBuilder.UseBlockShape | scripts/Phalcon/Builder/Job.php:136-141 | the use block always ends with the JobInterface line, preceded by the base-class line when there is one |
| JobBuilder.ReturnedNameLocatesFile | scripts/Phalcon/Builder/Job.php:126-168 | the returned name ends in `.php` and, joined to the directory and raw subdirectory, names the file that now holds the code |
| JobBuilder.Build | scripts/Phalcon/Builder/Job.php:60-169 | result and new workspace are Outcome of JobBuilder.Plan |
| LogicBuilder.Subdir | scripts/Phalcon/Builder/Logic.php:70-76 | a contained, non-empty `subdir` option gives its camelized form, and a non-empty result comes only from such an option |
| LogicBuilder.NamespaceLineFor | scripts/Phalcon/Builder/Logic.php:78-89 | an accepted option gives its line, even when empty and never with the subdirectory; else a non-empty configured namespace, suffixed by the camelized subdirectory when there is one; else no line |
| LogicBuilder.LogicsDir | scripts/Phalcon/Builder/Logic.php:103-110 | the option, else a configured directory that is set at all; missing exactly when neither is |
| LogicBuilder.BaseClass | scripts/Phalcon/Builder/Logic.php:91-96 | base-class precedence by truthiness: the option, else the configured class; empty exactly when neither gives one |
| LogicBuilder.Uses | scripts/Phalcon/Builder/Logic.php:96-100 | at most one use line, present exactly when the configured base class is used with a subdirectory, naming that class |
| LogicBuilder.Code | scripts/Phalcon/Builder/Logic.php:141-142 | the rendered logic class contains no tab |
| LogicBuilder.Plan | scripts/Phalcon/Builder/Logic.php:103-141 | error cases in order; class name and `<Class>.php`; namespace line, base class and uses as resolved above; the same camelized subdirectory in the path as in the namespace suffix |
| LogicBuilder.CodeShape | scripts/Phalcon/Builder/Logic.php:141-142 | the code is `<?php`, namespace and use lines, `class <Class> extends <base>` and an empty body |
| LogicBuilder.BareExtends | scripts/Phalcon/Builder/Logic.php:141 | with no base class at all there is no use block, and the class still reads ` extends ` directly followed by the body |
| LogicBuilder.ReturnedNameLocatesFile | scripts/Phalcon/Builder/Logic.php:125-163 | the returned name ends in `.php` and, joined to the directory and camelized subdirectory, names the file that now holds the code |
| LogicBuilder.Build | scripts/Phalcon/Builder/Logic.php:60-164 | result and new workspace are Outcome of LogicBuilder.Plan |
| TaskBuilder.NamespaceLineFor | scripts/Phalcon/Builder/Task.php:69-76 | an accepted option gives its line, else a non-empty configured namespace, else no line |
| TaskBuilder.TasksDir | scripts/Phalcon/Builder/Task.php:88-95 | the option, else a configured directory that is set at all; missing exactly when neither is |
| TaskBuilder.BaseClass | scripts/Phalcon/Builder/Task.php:78-86 | base-class precedence: a non-empty option wins, else `\Phalcon\Cli\Task` for an empty configuration, else the configured class |
| TaskBuilder.Code | scripts/Phalcon/Builder/Task.php:112-113 | the rendered task contains no tab |
| TaskBuilder.Plan | scripts/Phalcon/Builder/Task.php:88-113 | error cases in order; class name and `<Class>Task.php`; namespace line and base class as resolved above; no use lines, no subdirectory and the `dir/<Class>Task.php` path |
| TaskBuilder.CodeShape | scripts/Phalcon/Builder/Task.php:112-113 | the code is `<?php`, the namespace line, `class <Class>Task extends <base>` and an empty mainAction indented by four spaces |
| TaskBuilder.SubdirIgnored | scripts/Phalcon/Builder/Task.php:60-113 | removing the `subdir` option leaves the plan unchanged |
| TaskBuilder.ReturnedNameLocatesFile | scripts/Phalcon/Builder/Task.php:110-134 | the returned name ends in `Task.php` and, joined to the directory, names the file that now holds the code |
| TaskBuilder.Build | scripts/Phalcon/Builder/Task.php:60-135 | result and new workspace are Outcome of TaskBuilder.Plan |

## Left out

- The CLI command adapters (scripts/Phalcon/Commands/Builtin/*.php) only parse flags and construct a builder. They are not part of this model, including their routing of `--output` to `controllersDir`.
- `Utils::camelize`, `Utils::camelizeWithSlash`, `Component::checkNamespace`, `Options::contains` and `Component::isConsole` are outside the modelled builders, so they are abstract fields of `Env`. `PHP_EOL` and `DIRECTORY_SEPARATOR` are `Env` parameters. The controller's one-argument `camelizeWithSlash($subdir)` is modelled with "/" as its default separator.
- `getConfig` is outside the modelled builders. The configuration is a `Config` parameter, and the second `getConfig()` call inside the directory check is assumed to return the same configuration.
- PHP truthiness is read as "absent or the empty string". The string "0", which PHP also treats as false, is not singled out.
- Exception messages are not modelled: errors are `Error` values carrying the kind, and the name where the message uses it.
- `setRootPath` only records the root in the state. How it affects relative paths is outside the modelled builders, so paths are not resolved against it.
- `mkdir(..., 0777, true)` always succeeds and creates only the named directory. Parent directories, permissions and mkdir failure are not modelled.
- `SplFileObject` and `fwrite` are reduced to a `WriteResult` parameter (written, cannot open, wrote nothing). A partial write, `getRealPath` and the output of `echo`/`notifySuccess` are not modelled.
- Builder.ForceGuardInert: proved only under the "non-null entry" reading of `contains`. Other readings are left open because `Options::contains` is outside the modelled builders.
- Builder.UseBlock: states that no use lines give an empty block, but not the converse. With an empty PHP_EOL and empty use lines the block can be empty too.
