/** scripts/Phalcon/Builder/Job.php: the queue job builder. */
module JobBuilder {
  import opened PhpStrings
  import opened Builder

  /** The use line every job carries, always the last one. */
  const JobInterfaceUse: string := "use Xin\\Swoole\\Queue\\JobInterface;"

  /** The raw `subdir` option, or "": jobs never camelize it. */
  function Subdir(env: Env, o: Options): (sub: string)
    ensures Contains(env, o, "subdir") ==> sub == Get(o, "subdir")
    ensures !Contains(env, o, "subdir") ==> sub == ""
  {
    if Contains(env, o, "subdir") then Get(o, "subdir") else ""
  }

  /** $namespaceClass: the base namespace, qualified by the camelized subdirectory when both are non-empty. */
  function Namespace(env: Env, o: Options, cfg: Config): (ns: string)
    ensures ns == "" <==> BaseNamespace(env, o, cfg.job) == ""
    ensures Subdir(env, o) == "" ==> ns == BaseNamespace(env, o, cfg.job)
    ensures Subdir(env, o) != "" && ns != "" ==>
      ns == BaseNamespace(env, o, cfg.job) + "\\" + env.camelizeWithSlash(Subdir(env, o), "\\")
  {
    var base := BaseNamespace(env, o, cfg.job);
    if Subdir(env, o) != "" && base != "" then base + "\\" + env.camelizeWithSlash(Subdir(env, o), "\\")
    else base
  }

  /** The `jobsDir` option, else application.jobsDir when it is set at all (isset), else nothing. */
  function JobsDir(o: Options, cfg: Config): (d: Option<string>)
    ensures d.None? <==> Get(o, "jobsDir") == "" && cfg.application.jobsDir.None?
    ensures Get(o, "jobsDir") != "" ==> d == Some(Get(o, "jobsDir"))
    ensures Get(o, "jobsDir") == "" ==> d == cfg.application.jobsDir
  {
    if Get(o, "jobsDir") != "" then Some(Get(o, "jobsDir")) else cfg.application.jobsDir
  }

  /** The use lines: the base-class line when asked for, then always the JobInterface line. */
  function Uses(base: string, withBase: bool): (u: seq<string>)
    ensures u != [] && u[|u| - 1] == JobInterfaceUse
    ensures |u| == 2 <==> withBase
    ensures |u| <= 2 && (withBase ==> u[0] == UseLine("Jobs", base))
  {
    (if withBase then [UseLine("Jobs", base)] else []) + [JobInterfaceUse]
  }

  /** The `extends` clause: present exactly when there is a base class. */
  function Extends(base: string): (e: string)
    ensures e == "" <==> base == ""
    ensures base != "" ==> e == " extends " + base
  {
    if base != "" then " extends " + base else ""
  }

  /** The class skeleton build() writes, tabs expanded. */
  function Code(env: Env, namespaceLine: string, uses: seq<string>, className: string, base: string): (code: string)
    ensures '\t' !in code
  {
    ExpandTabs("<?php\n\n" + namespaceLine + UseBlock(env, uses) + "class " + className
      + Extends(base) + " implements JobInterface\n{\n" + "\t" + "\n}\n\n")
  }

  /** Base class: a truthy option, else a configured one that is set at all, else none. */
  function BaseClass(o: Options, cfg: Config): (base: string)
    ensures Get(o, "baseClass") != "" ==> base == Get(o, "baseClass")
    ensures Get(o, "baseClass") == "" && cfg.job.baseClass.Some? ==> base == cfg.job.baseClass.value
    ensures Get(o, "baseClass") == "" && cfg.job.baseClass.None? ==> base == ""
  {
    var option := Get(o, "baseClass");
    if option == "" && cfg.job.baseClass.Some? then cfg.job.baseClass.value else option
  }

  /** A base-class use line is added when the configured base class is used inside a subdirectory. */
  predicate UsesBaseLine(env: Env, o: Options, cfg: Config): (u: bool)
    ensures u ==> cfg.job.baseClass.Some? && Subdir(env, o) != "" && BaseClass(o, cfg) == cfg.job.baseClass.value
    ensures Get(o, "baseClass") != "" || cfg.job.baseClass.None? || Subdir(env, o) == "" ==> !u
    ensures Get(o, "baseClass") == "" && cfg.job.baseClass.Some? && Subdir(env, o) != "" ==> u
  {
    Get(o, "baseClass") == "" && cfg.job.baseClass.Some? && Subdir(env, o) != ""
  }

  /** Everything build() resolves before touching the filesystem. */
  function Plan(env: Env, o: Options, cfg: Config): (r: Result<ArtifactPlan>)
    // the output directory is checked first, then build()'s own `name` check
    ensures r.Err? <==> JobsDir(o, cfg).None? || !Contains(env, o, "name")
    ensures JobsDir(o, cfg).None? ==> r == Err(MissingOutputDir(Job))
    ensures JobsDir(o, cfg).Some? && r.Err? ==> r == Err(NameRequired(Job))
    // names
    ensures r.Ok? ==>
      r.value.kind == Job && r.value.name == Underscored(Get(o, "name")) &&
      r.value.className == env.camelize(r.value.name) &&
      r.value.fileName == r.value.className + ".php"
    // the resolved pieces of the class
    ensures r.Ok? ==>
      r.value.namespaceLine == OptionalNamespaceLine(env, Namespace(env, o, cfg)) &&
      r.value.baseClass == BaseClass(o, cfg) &&
      r.value.uses == Uses(r.value.baseClass, UsesBaseLine(env, o, cfg)) &&
      r.value.code == Code(env, r.value.namespaceLine, r.value.uses, r.value.className, r.value.baseClass)
    // target path: dir[/raw subdir]/<ClassName>.php
    ensures r.Ok? ==>
      var dir := TrimRight(ConsoleDir(env, JobsDir(o, cfg).value), Separators);
      (Subdir(env, o) == "" ==> r.value.folder == None && r.value.path == dir + env.ds + r.value.fileName) &&
      (Subdir(env, o) != "" ==>
        r.value.folder == Some(dir + env.ds + Subdir(env, o)) &&
        r.value.path == r.value.folder.value + env.ds + r.value.fileName)
  {
    var sub := Subdir(env, o);
    var namespaceLine := OptionalNamespaceLine(env, Namespace(env, o, cfg));
    var base := BaseClass(o, cfg);
    var uses := Uses(base, UsesBaseLine(env, o, cfg));
    match JobsDir(o, cfg)
    case None => Err(MissingOutputDir(Job))
    case Some(given) =>
      if !Contains(env, o, "name") then Err(NameRequired(Job))
      else
        var name := Underscored(Get(o, "name"));
        var className := env.camelize(name);
        var dir := TrimRight(ConsoleDir(env, given), Separators);
        var folder := if sub != "" then Some(dir + env.ds + sub) else None;
        var fileName := className + ".php";
        var path := (if sub != "" then dir + env.ds + sub else dir) + env.ds + fileName;
        var code := Code(env, namespaceLine, uses, className, base);
        Ok(ArtifactPlan(Job, name, className, namespaceLine, uses, base, folder, path, fileName, code))
  }

  /** The skeleton with its tab expanded, for any text put into it. */
  lemma {:induction false} Render(ns: string, uses: string, cn: string, ext: string,
                                  h: string, k: string, a: string, b: string)
    requires '\t' !in h && '\t' !in k && '\t' !in a && '\t' !in b
    ensures ExpandTabs(h + ns + uses + k + cn + ext + a + "\t" + b)
      == h + ExpandTabs(ns) + ExpandTabs(uses) + k + ExpandTabs(cn) + ExpandTabs(ext) + a + "    " + b
  {
    var p0 := h + ns;
    var p1 := p0 + uses;
    var p2 := p1 + k;
    var p3 := p2 + cn;
    var p4 := p3 + ext;
    var p5 := p4 + a;
    ExpandTabsAfter(p5 + "\t", b);
    ExpandTabsTab(p5);
    ExpandTabsAfter(p4, a);
    ExpandTabsAppend(p3, ext);
    ExpandTabsAppend(p2, cn);
    ExpandTabsAfter(p1, k);
    ExpandTabsAppend(p0, uses);
    ExpandTabsBefore(h, ns);
  }

  /** The generated code: "<?php", the namespace line, a use block (which
      ends in the JobInterface line, see UseBlockShape), then `class
      <ClassName>[ extends <base>] implements JobInterface` with an empty body;
      ` extends` appears exactly when the base class is non-empty. */
  lemma CodeShape(env: Env, namespaceLine: string, uses: seq<string>, className: string, base: string)
    ensures var code := Code(env, namespaceLine, uses, className, base);
      code == "<?php\n\n" + ExpandTabs(namespaceLine) + ExpandTabs(UseBlock(env, uses))
        + "class " + ExpandTabs(className) + ExpandTabs(Extends(base))
        + " implements JobInterface\n{\n" + "    " + "\n}\n\n"
  {
    assert '\t' !in "<?php\n\n" && '\t' !in "class " && '\t' !in " implements JobInterface\n{\n" &&
      '\t' !in "\n}\n\n";
    Render(namespaceLine, UseBlock(env, uses), className, Extends(base),
      "<?php\n\n", "class ", " implements JobInterface\n{\n", "\n}\n\n");
  }

  /** The rendered use block always ends with the JobInterface line; with a
      base-class line it is exactly that line, a newline, then the JobInterface line. */
  lemma UseBlockShape(env: Env, base: string, withBase: bool)
    ensures EndsWith(UseBlock(env, Uses(base, withBase)), JobInterfaceUse + env.eol + env.eol)
    ensures withBase ==>
      UseBlock(env, Uses(base, withBase)) == UseLine("Jobs", base) + "\n" + JobInterfaceUse + env.eol + env.eol
  {
  }

  /** Round trip: the returned file name, joined to the resolved directory
      and the raw subdirectory, is the path that now holds the rendered code. */
  lemma ReturnedNameLocatesFile(env: Env, o: Options, cfg: Config, s: State, io: WriteResult)
    ensures var (r, s') := Outcome(env, o, s, Plan(env, o, cfg), io);
      r.Ok? ==>
        var dir := TrimRight(ConsoleDir(env, JobsDir(o, cfg).value), Separators);
        var folder := if Subdir(env, o) == "" then dir else dir + env.ds + Subdir(env, o);
        EndsWith(r.value, ".php") &&
        folder + env.ds + r.value in s'.files &&
        s'.files[folder + env.ds + r.value] == Plan(env, o, cfg).value.code
  {
  }

  /** build(): resolve the plan, then set the root, create the subdirectory,
      apply the existing-file guard and write. */
  method Build(ws: Workspace, env: Env, o: Options, cfg: Config, io: WriteResult) returns (r: Result<string>)
    modifies ws
    ensures (r, ws.Snapshot()) == Outcome(env, o, old(ws.Snapshot()), Plan(env, o, cfg), io)
  {
    var plan := Plan(env, o, cfg);
    r := ws.Emit(env, o, plan, io);
  }
}
