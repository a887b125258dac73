/** scripts/Phalcon/Builder/Task.php: the CLI task builder. */
module TaskBuilder {
  import opened PhpStrings
  import opened Builder

  const DefaultBase: string := "\\Phalcon\\Cli\\Task"

  /** The namespace line: an accepted `namespace` option as given (even when
      empty), else a non-empty configured namespace, else none. */
  function NamespaceLineFor(env: Env, o: Options, cfg: Config): (line: string)
    ensures line == "" <==> !NamespaceOptionApplies(env, o) && IsEmpty(cfg.task.namespace)
    ensures NamespaceOptionApplies(env, o) ==> line == NamespaceLine(env, Get(o, "namespace"))
    ensures !NamespaceOptionApplies(env, o) && !IsEmpty(cfg.task.namespace) ==>
      line == NamespaceLine(env, cfg.task.namespace.value)
  {
    if NamespaceOptionApplies(env, o) then NamespaceLine(env, Get(o, "namespace"))
    else if IsEmpty(cfg.task.namespace) then ""
    else NamespaceLine(env, cfg.task.namespace.value)
  }

  /** The `tasksDir` option, else application.tasksDir when it is set at all (isset), else nothing. */
  function TasksDir(o: Options, cfg: Config): (d: Option<string>)
    ensures d.None? <==> Get(o, "tasksDir") == "" && cfg.application.tasksDir.None?
    ensures Get(o, "tasksDir") != "" ==> d == Some(Get(o, "tasksDir"))
    ensures Get(o, "tasksDir") == "" ==> d == cfg.application.tasksDir
  {
    if Get(o, "tasksDir") != "" then Some(Get(o, "tasksDir")) else cfg.application.tasksDir
  }

  /** The class skeleton build() writes, tabs expanded; tasks have no use lines. */
  function Code(env: Env, namespaceLine: string, className: string, base: string): (code: string)
    ensures '\t' !in code
  {
    ExpandTabs("<?php\n\n" + namespaceLine + "class " + className + "Task extends " + base
      + "\n{\n\n" + "\t" + "public function mainAction()\n" + "\t" + "{\n\n" + "\t" + "}\n\n}\n\n")
  }

  /** Base class: a truthy option, else a non-empty configured one, else \Phalcon\Cli\Task. */
  function BaseClass(o: Options, cfg: Config): (base: string)
    ensures Get(o, "baseClass") != "" ==> base == Get(o, "baseClass")
    ensures Get(o, "baseClass") == "" && IsEmpty(cfg.task.baseClass) ==> base == DefaultBase
    ensures Get(o, "baseClass") == "" && !IsEmpty(cfg.task.baseClass) ==> base == cfg.task.baseClass.value
  {
    var option := Get(o, "baseClass");
    if option != "" then option
    else if IsEmpty(cfg.task.baseClass) then DefaultBase
    else cfg.task.baseClass.value
  }

  /** Everything build() resolves before touching the filesystem. */
  function Plan(env: Env, o: Options, cfg: Config): (r: Result<ArtifactPlan>)
    ensures r.Err? <==> TasksDir(o, cfg).None? || !Contains(env, o, "name")
    ensures TasksDir(o, cfg).None? ==> r == Err(MissingOutputDir(Task))
    ensures TasksDir(o, cfg).Some? && r.Err? ==> r == Err(NameRequired(Task))
    ensures r.Ok? ==>
      r.value.kind == Task && r.value.name == Underscored(Get(o, "name")) &&
      r.value.className == env.camelize(r.value.name) &&
      r.value.fileName == r.value.className + "Task.php"
    ensures r.Ok? ==> r.value.namespaceLine == NamespaceLineFor(env, o, cfg)
    ensures r.Ok? ==> r.value.baseClass == BaseClass(o, cfg)
    ensures r.Ok? ==>
      r.value.code == Code(env, r.value.namespaceLine, r.value.className, r.value.baseClass)
    // no use lines and no subdirectory: dir/<ClassName>Task.php
    ensures r.Ok? ==>
      r.value.uses == [] && r.value.folder == None &&
      r.value.path == TrimRight(ConsoleDir(env, TasksDir(o, cfg).value), Separators) + env.ds + r.value.fileName
  {
    var namespaceLine := NamespaceLineFor(env, o, cfg);
    var base := BaseClass(o, cfg);
    match TasksDir(o, cfg)
    case None => Err(MissingOutputDir(Task))
    case Some(given) =>
      if !Contains(env, o, "name") then Err(NameRequired(Task))
      else
        var name := Underscored(Get(o, "name"));
        var className := env.camelize(name);
        var fileName := className + "Task.php";
        var path := TrimRight(ConsoleDir(env, given), Separators) + env.ds + fileName;
        var code := Code(env, namespaceLine, className, base);
        Ok(ArtifactPlan(Task, name, className, namespaceLine, [], base, None, path, fileName, code))
  }

  /** The skeleton with its tabs expanded, for any text put into it. */
  lemma {:induction false} Render(ns: string, cn: string, base: string,
                                  h: string, k: string, m: string, a: string, b: string, c: string, d: string)
    requires '\t' !in h && '\t' !in k && '\t' !in m && '\t' !in a && '\t' !in b && '\t' !in c && '\t' !in d
    ensures ExpandTabs(h + ns + k + cn + m + base + a + "\t" + b + "\t" + c + "\t" + d)
      == h + ExpandTabs(ns) + k + ExpandTabs(cn) + m + ExpandTabs(base) + a + "    " + b + "    " + c + "    " + d
  {
    var p0 := h + ns;
    var pk := p0 + k;
    var p1 := pk + cn;
    var p2 := p1 + m;
    var p3 := p2 + base;
    var p4 := p3 + a;
    var p6 := p4 + "\t" + b;
    var p8 := p6 + "\t" + c;
    ExpandTabsAfter(p8 + "\t", d);
    ExpandTabsTab(p8);
    ExpandTabsAfter(p6 + "\t", c);
    ExpandTabsTab(p6);
    ExpandTabsAfter(p4 + "\t", b);
    ExpandTabsTab(p4);
    ExpandTabsAfter(p3, a);
    ExpandTabsAppend(p2, base);
    ExpandTabsAfter(p1, m);
    ExpandTabsAppend(pk, cn);
    ExpandTabsAfter(p0, k);
    ExpandTabsBefore(h, ns);
  }

  /** The generated code: "<?php", the namespace line, then
      `class <ClassName>Task extends <base>` with an empty mainAction,
      indented with four spaces. */
  lemma CodeShape(env: Env, namespaceLine: string, className: string, base: string)
    ensures var code := Code(env, namespaceLine, className, base);
      code == "<?php\n\n" + ExpandTabs(namespaceLine) + "class " + ExpandTabs(className)
        + "Task extends " + ExpandTabs(base)
        + "\n{\n\n" + "    " + "public function mainAction()\n" + "    " + "{\n\n" + "    " + "}\n\n}\n\n"
  {
    assert '\t' !in "<?php\n\n" && '\t' !in "class " && '\t' !in "Task extends " &&
      '\t' !in "\n{\n\n" && '\t' !in "public function mainAction()\n" && '\t' !in "{\n\n" &&
      '\t' !in "}\n\n}\n\n";
    Render(namespaceLine, className, base,
      "<?php\n\n", "class ", "Task extends ", "\n{\n\n", "public function mainAction()\n", "{\n\n", "}\n\n}\n\n");
  }

  /** Tasks take no subdirectory: the `subdir` option changes nothing in the plan. */
  lemma SubdirIgnored(env: Env, o: Options, cfg: Config)
    ensures Plan(env, o, cfg) == Plan(env, o - {"subdir"}, cfg)
  {
    var o' := o - {"subdir"};
    assert Lookup(o, "name") == Lookup(o', "name") && Get(o, "name") == Get(o', "name");
    assert Lookup(o, "namespace") == Lookup(o', "namespace") && Get(o, "namespace") == Get(o', "namespace");
    assert Get(o, "baseClass") == Get(o', "baseClass") && Get(o, "tasksDir") == Get(o', "tasksDir");
    assert NamespaceLineFor(env, o, cfg) == NamespaceLineFor(env, o', cfg);
    assert TasksDir(o, cfg) == TasksDir(o', cfg);
  }

  /** Round trip: the returned file name, joined to the resolved directory,
      is the path that now holds the rendered code. */
  lemma ReturnedNameLocatesFile(env: Env, o: Options, cfg: Config, s: State, io: WriteResult)
    ensures var (r, s') := Outcome(env, o, s, Plan(env, o, cfg), io);
      r.Ok? ==>
        var dir := TrimRight(ConsoleDir(env, TasksDir(o, cfg).value), Separators);
        EndsWith(r.value, "Task.php") &&
        dir + env.ds + r.value in s'.files &&
        s'.files[dir + env.ds + r.value] == Plan(env, o, cfg).value.code
  {
  }

  /** build(): resolve the plan, then set the root, apply the existing-file guard and write. */
  method Build(ws: Workspace, env: Env, o: Options, cfg: Config, io: WriteResult) returns (r: Result<string>)
    modifies ws
    ensures (r, ws.Snapshot()) == Outcome(env, o, old(ws.Snapshot()), Plan(env, o, cfg), io)
  {
    var plan := Plan(env, o, cfg);
    r := ws.Emit(env, o, plan, io);
  }
}
