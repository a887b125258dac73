/** What the four artifact builders of Phalcon\Builder share: the options bag
    and its constructor, the project configuration, the collaborators whose
    code is not part of this model, the resolved plan of one build, and the
    filesystem the plan is written to. */
module Builder {
  import opened PhpStrings

  datatype Option<T> = None | Some(value: T)

  datatype Result<T> = Ok(value: T) | Err(error: Error)

  datatype Kind = Controller | Job | Logic | Task

  /** The BuilderException (and SplFileObject failure) a build can end in. */
  datatype Error =
    | MissingName(kind: Kind)                  // __construct: no `name` option
    | MissingOutputDir(kind: Kind)             // neither option nor configuration names the output directory
    | NameRequired(kind: Kind)                 // build(): options->contains('name') is false
    | AlreadyExists(kind: Kind, name: string)  // target exists and `force` is not contained
    | OpenFailed(path: string)                 // new SplFileObject(path, 'w') cannot open the target
    | WriteFailed(path: string)                // fwrite wrote nothing

  /** The builder options. Values are PHP scalars in their string form
      (false is "", true is "1"); a null value is an absent key. */
  type Options = map<string, string>

  /** The string form of PHP's false, which the constructors store under `force`. */
  const PhpFalse: string := ""

  /** One per-kind section of the project configuration; None is an unset key. */
  datatype Section = Section(namespace: Option<string>, baseClass: Option<string>)

  datatype Application = Application(
    controllersDir: Option<string>,
    jobsDir: Option<string>,
    logicsDir: Option<string>,
    tasksDir: Option<string>)

  datatype Config = Config(
    controller: Section,
    job: Section,
    logic: Section,
    task: Section,
    application: Application)

  /** Collaborators whose code is not part of this model: Utils::camelize,
      Utils::camelizeWithSlash, Component::checkNamespace, Options::contains
      (as a function of the key and that key's entry), Component::isConsole,
      and the constants PHP_EOL and DIRECTORY_SEPARATOR. */
  datatype Env = Env(
    camelize: string -> string,
    camelizeWithSlash: (string, string) -> string,
    checkNamespace: string -> bool,
    contains: (string, Option<string>) -> bool,
    isConsole: bool,
    eol: string,
    ds: string)

  function Lookup(o: Options, key: string): Option<string> {
    if key in o then Some(o[key]) else None
  }

  /** $this->options->contains(key). */
  predicate Contains(env: Env, o: Options, key: string) {
    env.contains(key, Lookup(o, key))
  }

  /** $this->options->get(key), with null read as "". */
  function Get(o: Options, key: string): string {
    if key in o then o[key] else ""
  }

  /** PHP's empty() on a configuration value; !empty() is also its truthiness. */
  predicate IsEmpty(v: Option<string>) {
    v.None? || v.value == ""
  }

  /** The character lists of rtrim($dir, '\\/') and ltrim($dir, './'). */
  const Separators: set<char> := {'\\', '/'}
  const DotSlash: set<char> := {'.', '/'}

  /** The four constructors (identical up to their messages): `name` must be
      set, and `force` is inserted as false when it is not. */
  function Construct(kind: Kind, raw: Options): (r: Result<Options>)
    ensures r.Err? <==> "name" !in raw
    ensures r.Err? ==> r.error == MissingName(kind)
    ensures r.Ok? ==> r.value.Keys == raw.Keys + {"force"}
    ensures r.Ok? ==> forall k | k in raw :: r.value[k] == raw[k]
    ensures r.Ok? && "force" !in raw ==> r.value["force"] == PhpFalse
  {
    if "name" !in raw then Err(MissingName(kind))
    else if "force" in raw then Ok(raw)
    else Ok(raw["force" := PhpFalse])
  }

  /** The explicit `namespace` option is used only when present and accepted by checkNamespace. */
  predicate NamespaceOptionApplies(env: Env, o: Options)
    ensures !Contains(env, o, "namespace") ==> !NamespaceOptionApplies(env, o)
    ensures !env.checkNamespace(Get(o, "namespace")) ==> !NamespaceOptionApplies(env, o)
    ensures Contains(env, o, "namespace") && env.checkNamespace(Get(o, "namespace")) ==> NamespaceOptionApplies(env, o)
  {
    Contains(env, o, "namespace") && env.checkNamespace(Get(o, "namespace"))
  }

  /** Controller and Job: the option namespace when it applies and is non-empty,
      else a non-empty configured one, else "". */
  function BaseNamespace(env: Env, o: Options, section: Section): (ns: string)
    ensures ns == "" <==>
      (!NamespaceOptionApplies(env, o) || Get(o, "namespace") == "") && IsEmpty(section.namespace)
    ensures NamespaceOptionApplies(env, o) && Get(o, "namespace") != "" ==> ns == Get(o, "namespace")
    ensures !(NamespaceOptionApplies(env, o) && Get(o, "namespace") != "") && !IsEmpty(section.namespace) ==>
      ns == section.namespace.value
  {
    var option := if NamespaceOptionApplies(env, o) then Get(o, "namespace") else "";
    if option == "" && !IsEmpty(section.namespace) then section.namespace.value else option
  }

  /** 'namespace ' . $ns . ';' . PHP_EOL . PHP_EOL */
  function NamespaceLine(env: Env, ns: string): (line: string)
    ensures StartsWith(line, "namespace " + ns + ";") && EndsWith(line, env.eol + env.eol)
    ensures |line| == |"namespace "| + |ns| + 1 + 2 * |env.eol|
  {
    "namespace " + ns + ";" + env.eol + env.eol
  }

  /** Controller and job: a namespace line exactly when the resolved namespace is non-empty. */
  function OptionalNamespaceLine(env: Env, ns: string): (line: string)
    ensures line == "" <==> ns == ""
    ensures ns != "" ==> line == "namespace " + ns + ";" + env.eol + env.eol
  {
    if ns != "" then NamespaceLine(env, ns) else ""
  }

  /** The use line a builder adds for a configured base class, importing it from App\<segment>. */
  function UseLine(segment: string, base: string): (line: string)
    ensures StartsWith(line, "use App\\" + segment + "\\") && EndsWith(line, base + ";")
    ensures |line| == |"use App\\"| + |segment| + 1 + |base| + 1
  {
    "use App\\" + segment + "\\" + base + ";"
  }

  /** join("\n", $uses) . PHP_EOL . PHP_EOL, or "" for no use lines. */
  function UseBlock(env: Env, uses: seq<string>): (b: string)
    ensures uses == [] ==> b == ""
    ensures uses != [] ==> StartsWith(b, uses[0]) && EndsWith(b, uses[|uses| - 1] + env.eol + env.eol)
    ensures |uses| == 1 ==> b == uses[0] + env.eol + env.eol
    ensures |uses| == 2 ==> b == uses[0] + "\n" + uses[1] + env.eol + env.eol
  {
    if uses == [] then "" else Join("\n", uses) + env.eol + env.eol
  }

  /** str_replace(' ', '_', name): the name used in messages and given to camelize. */
  function Underscored(name: string): (r: string)
    ensures |r| == |name| && ' ' !in r
    ensures forall i | 0 <= i < |name| :: r[i] == if name[i] == ' ' then '_' else name[i]
  {
    ReplaceByChar(name, ' ', '_');
    Replace(name, ' ', "_")
  }

  /** In console mode a directory beginning with "../" loses all its leading '.' and '/'. */
  function ConsoleDir(env: Env, dir: string): (d: string)
    ensures !(env.isConsole && StartsWith(dir, "../")) ==> d == dir
    ensures env.isConsole && StartsWith(dir, "../") ==>
      EndsWith(dir, d) && (d == [] || d[0] !in DotSlash) &&
      forall i | 0 <= i < |dir| - |d| :: dir[i] in DotSlash
  {
    if env.isConsole && StartsWith(dir, "../") then TrimLeft(dir, DotSlash) else dir
  }

  /** str_replace("\t", "    ", $code). */
  function ExpandTabs(s: string): (r: string)
    ensures '\t' !in r
    ensures '\t' !in s ==> r == s
  {
    Replace(s, '\t', "    ")
  }

  lemma ExpandTabsAppend(a: string, b: string)
    ensures ExpandTabs(a + b) == ExpandTabs(a) + ExpandTabs(b)
  {
    ReplaceAppend(a, b, '\t', "    ");
  }

  lemma ExpandTab()
    ensures ExpandTabs("\t") == "    "
  {
    assert "\t"[1..] == [];
  }

  // The three lemmas below take the template text as parameters: applied to a
  // literal argument, ExpandTabs would be unfolded character by character.

  lemma ExpandTabsBefore(fixed: string, x: string)
    requires '\t' !in fixed
    ensures ExpandTabs(fixed + x) == fixed + ExpandTabs(x)
  {
    ExpandTabsAppend(fixed, x);
  }

  lemma ExpandTabsAfter(x: string, fixed: string)
    requires '\t' !in fixed
    ensures ExpandTabs(x + fixed) == ExpandTabs(x) + fixed
  {
    ExpandTabsAppend(x, fixed);
  }

  lemma ExpandTabsTab(x: string)
    ensures ExpandTabs(x + "\t") == ExpandTabs(x) + "    "
  {
    ExpandTabsAppend(x, "\t");
    ExpandTab();
  }

  /** The resolved, not yet written, outcome of one build(). */
  datatype ArtifactPlan = ArtifactPlan(
    kind: Kind,
    name: string,             // the underscored name, as in the error messages
    className: string,
    namespaceLine: string,
    uses: seq<string>,
    baseClass: string,
    folder: Option<string>,   // the subdirectory to create, if any
    path: string,
    fileName: string,         // what build() returns
    code: string)

  /** How the write of the target file goes; the real filesystem decides. */
  datatype WriteResult = Written | OpenFails | WriteFails

  /** The root path set by `directory`, the directories and the files. */
  datatype State = State(root: string, dirs: set<string>, files: map<string, string>)

  /** file_exists is also true of a directory. */
  predicate Exists(s: State, path: string)
    ensures path in s.files ==> Exists(s, path)
    ensures path in s.dirs ==> Exists(s, path)
    ensures Exists(s, path) ==> path in s.files || path in s.dirs
  {
    path in s.files || path in s.dirs
  }

  /** The effect of one build() given its plan: set the root, create the
      subdirectory, refuse an existing target unless `force` is contained,
      then open (truncating) and write. */
  function Outcome(env: Env, o: Options, s: State, plan: Result<ArtifactPlan>, io: WriteResult): (res: (Result<string>, State))
    ensures res.1.root == if Contains(env, o, "directory") then Get(o, "directory") else s.root
    ensures plan.Err? ==> res.0 == Err(plan.error)
    ensures res.0.Ok? ==> plan.Ok? && io.Written? && res.0.value == plan.value.fileName
    ensures plan.Ok? && plan.value.folder.Some? ==> plan.value.folder.value in res.1.dirs
  {
    var s0 := if Contains(env, o, "directory") then s.(root := Get(o, "directory")) else s;
    match plan
    case Err(e) => (Err(e), s0)
    case Ok(p) =>
      var s1 := if p.folder.Some? then s0.(dirs := s0.dirs + {p.folder.value}) else s0;
      if Exists(s1, p.path) && !Contains(env, o, "force") then (Err(AlreadyExists(p.kind, p.name)), s1)
      else if p.path in s1.dirs || io == OpenFails then (Err(OpenFailed(p.path)), s1)
      else if io == WriteFails then (Err(WriteFailed(p.path)), s1.(files := s1.files[p.path := ""]))
      else (Ok(p.fileName), s1.(files := s1.files[p.path := p.code]))
  }

  /** A build whose plan fails (no output directory, no name) ends in that
      error before any directory is created or file written. */
  lemma PlanErrorTouchesNothing(env: Env, o: Options, s: State, plan: Result<ArtifactPlan>, io: WriteResult)
    requires plan.Err?
    ensures var (r, s') := Outcome(env, o, s, plan, io);
      r == Err(plan.error) && s'.dirs == s.dirs && s'.files == s.files
  {
  }

  /** A successful build wrote exactly the planned code at the planned path,
      created at most the planned folder, and returned the planned file name. */
  lemma SuccessWritesPlan(env: Env, o: Options, s: State, plan: Result<ArtifactPlan>, io: WriteResult)
    ensures var (r, s') := Outcome(env, o, s, plan, io);
      r.Ok? ==>
        plan.Ok? && io == Written && r.value == plan.value.fileName &&
        s'.files == s.files[plan.value.path := plan.value.code] &&
        s'.dirs == s.dirs + (if plan.value.folder.Some? then {plan.value.folder.value} else {})
  {
  }

  /** The other half of the guard: with no existing target, or with `force`,
      a target that is not a directory and an fwrite that goes through, the
      build writes the planned code and returns the planned file name. */
  lemma AllowedBuildSucceeds(env: Env, o: Options, s: State, p: ArtifactPlan)
    requires !Exists(s, p.path) || Contains(env, o, "force")
    requires p.path !in s.dirs && p.folder != Some(p.path)
    ensures var (r, s') := Outcome(env, o, s, Ok(p), Written);
      r == Ok(p.fileName) && s'.files == s.files[p.path := p.code]
  {
  }

  /** A target that does not exist (and is not the folder being created) is
      never refused as existing, whatever happens to the write. */
  lemma NoRefusalWithoutTarget(env: Env, o: Options, s: State, p: ArtifactPlan, io: WriteResult)
    requires !Exists(s, p.path) && p.folder != Some(p.path)
    ensures var r := Outcome(env, o, s, Ok(p), io).0;
      r.Err? ==> !r.error.AlreadyExists?
  {
  }

  /** A failed build leaves every file as it was, except that a failed
      fwrite leaves the truncated target behind. */
  lemma FailureKeepsFiles(env: Env, o: Options, s: State, plan: Result<ArtifactPlan>, io: WriteResult)
    ensures var (r, s') := Outcome(env, o, s, plan, io);
      r.Err? && !r.error.WriteFailed? ==> s'.files == s.files
  {
  }

  /** The existing-file guard: without `force` an existing target is refused
      and nothing is written; the subdirectory may already have been created. */
  lemma ExistingTargetRefused(env: Env, o: Options, s: State, p: ArtifactPlan, io: WriteResult)
    requires !Contains(env, o, "force")
    requires Exists(s, p.path) || p.folder == Some(p.path)
    ensures var (r, s') := Outcome(env, o, s, Ok(p), io);
      r == Err(AlreadyExists(p.kind, p.name)) && s'.files == s.files &&
      s'.dirs == s.dirs + (if p.folder.Some? then {p.folder.value} else {})
  {
  }

  /** The planned subdirectory exists after the build, whatever its result. */
  lemma FolderCreated(env: Env, o: Options, s: State, p: ArtifactPlan, io: WriteResult)
    requires p.folder.Some?
    ensures p.folder.value in Outcome(env, o, s, Ok(p), io).1.dirs
  {
  }

  /** Building the same plan again without `force` is refused and changes nothing. */
  lemma SecondBuildRefused(env: Env, o: Options, s: State, p: ArtifactPlan, io: WriteResult)
    requires !Contains(env, o, "force")
    requires Outcome(env, o, s, Ok(p), Written).0.Ok?
    ensures var s1 := Outcome(env, o, s, Ok(p), Written).1;
      Outcome(env, o, s1, Ok(p), io) == (Err(AlreadyExists(p.kind, p.name)), s1)
  {
  }

  /** With `force`, a successful build repeated is a no-op that succeeds again. */
  lemma ForcedRebuildIdempotent(env: Env, o: Options, s: State, p: ArtifactPlan)
    requires Contains(env, o, "force")
    requires Outcome(env, o, s, Ok(p), Written).0.Ok?
    ensures var (r1, s1) := Outcome(env, o, s, Ok(p), Written);
      Outcome(env, o, s1, Ok(p), Written) == (r1, s1)
  {
    var s1 := Outcome(env, o, s, Ok(p), Written).1;
    if p.folder.Some? {
      assert s1.dirs + {p.folder.value} == s1.dirs;
    }
    assert s1.files[p.path := p.code] == s1.files;
  }

  /** Options::contains read as "the key has a non-null entry". */
  ghost predicate ContainsIsPresence(env: Env) {
    forall k, v :: env.contains(k, v) <==> v.Some?
  }

  /** Under that reading the constructors' inserted `force` key is always
      contained, so the existing-file guard never fires (an existing target
      is overwritten) and build()'s own `name` check always passes. */
  lemma ForceGuardInert(env: Env, kind: Kind, raw: Options, s: State, plan: Result<ArtifactPlan>, io: WriteResult)
    requires ContainsIsPresence(env)
    requires Construct(kind, raw).Ok?
    requires plan.Ok?
    ensures var o := Construct(kind, raw).value;
      Contains(env, o, "force") && Contains(env, o, "name") &&
      var r := Outcome(env, o, s, plan, io).0;
      r.Err? ==> !r.error.AlreadyExists?
  {
  }

  /** The project tree the builders write into, with the root path that
      setRootPath changes. */
  class Workspace {
    var root: string
    var dirs: set<string>
    var files: map<string, string>

    function Snapshot(): State
      reads this
    {
      State(root, dirs, files)
    }

    constructor (s: State)
      ensures Snapshot() == s
    {
      root, dirs, files := s.root, s.dirs, s.files;
    }

    /** $this->path->setRootPath(path) */
    method SetRootPath(path: string)
      modifies this
      ensures Snapshot() == old(Snapshot()).(root := path)
    {
      root := path;
    }

    function IsDir(path: string): bool
      reads this
    {
      path in dirs
    }

    function FileExists(path: string): bool
      reads this
    {
      Exists(Snapshot(), path)
    }

    /** mkdir(path, 0777, true) */
    method MakeDir(path: string)
      modifies this
      ensures Snapshot() == old(Snapshot()).(dirs := old(dirs) + {path})
    {
      dirs := dirs + {path};
    }

    /** new SplFileObject(path, 'w') followed by fwrite(text). */
    method OpenAndWrite(path: string, text: string, io: WriteResult) returns (failure: Option<Error>)
      modifies this
      ensures path in old(dirs) || io == OpenFails ==>
        failure == Some(OpenFailed(path)) && Snapshot() == old(Snapshot())
      ensures !(path in old(dirs) || io == OpenFails) && io == WriteFails ==>
        failure == Some(WriteFailed(path)) && Snapshot() == old(Snapshot()).(files := old(files)[path := ""])
      ensures !(path in old(dirs) || io == OpenFails) && io == Written ==>
        failure == None && Snapshot() == old(Snapshot()).(files := old(files)[path := text])
    {
      if path in dirs || io == OpenFails {
        return Some(OpenFailed(path));
      }
      if io == WriteFails {
        files := files[path := ""];
        return Some(WriteFailed(path));
      }
      files := files[path := text];
      failure := None;
    }

    /** The part of build() every builder shares once its plan is resolved:
        setRootPath for `directory`, then (for a successful plan) mkdir of a
        missing subdirectory, the existing-file guard and the write. The plan
        is pure, so resolving it before setRootPath changes nothing. */
    method Emit(env: Env, o: Options, plan: Result<ArtifactPlan>, io: WriteResult) returns (r: Result<string>)
      modifies this
      ensures (r, Snapshot()) == Outcome(env, o, old(Snapshot()), plan, io)
    {
      if Contains(env, o, "directory") {
        SetRootPath(Get(o, "directory"));
      }
      if plan.Err? {
        return Err(plan.error);
      }
      var p := plan.value;
      if p.folder.Some? {
        if !IsDir(p.folder.value) {
          MakeDir(p.folder.value);
        } else {
          assert dirs + {p.folder.value} == dirs;
        }
      }
      if FileExists(p.path) && !Contains(env, o, "force") {
        return Err(AlreadyExists(p.kind, p.name));
      }
      var failure := OpenAndWrite(p.path, p.code, io);
      if failure.Some? {
        return Err(failure.value);
      }
      r := Ok(p.fileName);
    }
  }
}
