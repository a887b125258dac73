/** scripts/Phalcon/Builder/Logic.php: the business-logic class builder. */
module LogicBuilder {
  import opened PhpStrings
  import opened Builder

  /** The `subdir` option camelized (the one-argument camelize), or "". */
  function Subdir(env: Env, o: Options): (sub: string)
    ensures sub != "" ==> Contains(env, o, "subdir") && Get(o, "subdir") != ""
    ensures Contains(env, o, "subdir") && Get(o, "subdir") != "" ==> sub == env.camelize(Get(o, "subdir"))
  {
    var raw := if Contains(env, o, "subdir") then Get(o, "subdir") else "";
    if raw != "" then env.camelize(raw) else ""
  }

  /** The namespace line: an accepted `namespace` option is used as given, even
      when empty, and never qualified by the subdirectory; otherwise a non-empty
      configured namespace, qualified by the subdirectory when there is one. */
  function NamespaceLineFor(env: Env, o: Options, cfg: Config): (line: string)
    ensures line == "" <==> !NamespaceOptionApplies(env, o) && IsEmpty(cfg.logic.namespace)
    ensures NamespaceOptionApplies(env, o) ==> line == NamespaceLine(env, Get(o, "namespace"))
    ensures !NamespaceOptionApplies(env, o) && !IsEmpty(cfg.logic.namespace) && Subdir(env, o) == "" ==>
      line == NamespaceLine(env, cfg.logic.namespace.value)
    ensures !NamespaceOptionApplies(env, o) && !IsEmpty(cfg.logic.namespace) && Subdir(env, o) != "" ==>
      line == NamespaceLine(env, cfg.logic.namespace.value + "\\" + Subdir(env, o))
  {
    if NamespaceOptionApplies(env, o) then NamespaceLine(env, Get(o, "namespace"))
    else if IsEmpty(cfg.logic.namespace) then ""
    else if Subdir(env, o) == "" then NamespaceLine(env, cfg.logic.namespace.value)
    else NamespaceLine(env, cfg.logic.namespace.value + "\\" + Subdir(env, o))
  }

  /** The `logicsDir` option, else application.logicsDir when it is set at all (isset), else nothing. */
  function LogicsDir(o: Options, cfg: Config): (d: Option<string>)
    ensures d.None? <==> Get(o, "logicsDir") == "" && cfg.application.logicsDir.None?
    ensures Get(o, "logicsDir") != "" ==> d == Some(Get(o, "logicsDir"))
    ensures Get(o, "logicsDir") == "" ==> d == cfg.application.logicsDir
  {
    if Get(o, "logicsDir") != "" then Some(Get(o, "logicsDir")) else cfg.application.logicsDir
  }

  /** The class skeleton build() writes, tabs expanded. */
  function Code(env: Env, namespaceLine: string, uses: seq<string>, className: string, base: string): (code: string)
    ensures '\t' !in code
  {
    ExpandTabs("<?php\n\n" + namespaceLine + UseBlock(env, uses) + "class " + className
      + " extends " + base + "\n{\n" + "\t" + "\n}\n\n")
  }

  /** Base class: a truthy option, else a truthy configured one, else empty. */
  function BaseClass(o: Options, cfg: Config): (base: string)
    ensures Get(o, "baseClass") != "" ==> base == Get(o, "baseClass")
    ensures Get(o, "baseClass") == "" && !IsEmpty(cfg.logic.baseClass) ==> base == cfg.logic.baseClass.value
    ensures base == "" <==> Get(o, "baseClass") == "" && IsEmpty(cfg.logic.baseClass)
  {
    var option := Get(o, "baseClass");
    if option == "" && !IsEmpty(cfg.logic.baseClass) then cfg.logic.baseClass.value else option
  }

  /** One use line, exactly when the configured base class is used inside a subdirectory. */
  function Uses(env: Env, o: Options, cfg: Config): (uses: seq<string>)
    ensures |uses| <= 1
    ensures |uses| == 1 <==>
      Get(o, "baseClass") == "" && !IsEmpty(cfg.logic.baseClass) && Subdir(env, o) != ""
    ensures |uses| == 1 ==> uses[0] == UseLine("Logics", BaseClass(o, cfg))
  {
    if Get(o, "baseClass") == "" && !IsEmpty(cfg.logic.baseClass) && Subdir(env, o) != ""
    then [UseLine("Logics", BaseClass(o, cfg))]
    else []
  }

  /** Everything build() resolves before touching the filesystem. */
  function Plan(env: Env, o: Options, cfg: Config): (r: Result<ArtifactPlan>)
    // the output directory is checked first, then build()'s own `name` check
    ensures r.Err? <==> LogicsDir(o, cfg).None? || !Contains(env, o, "name")
    ensures LogicsDir(o, cfg).None? ==> r == Err(MissingOutputDir(Logic))
    ensures LogicsDir(o, cfg).Some? && r.Err? ==> r == Err(NameRequired(Logic))
    // names
    ensures r.Ok? ==>
      r.value.kind == Logic && r.value.name == Underscored(Get(o, "name")) &&
      r.value.className == env.camelize(r.value.name) &&
      r.value.fileName == r.value.className + ".php"
    // the resolved pieces of the class
    ensures r.Ok? ==>
      r.value.namespaceLine == NamespaceLineFor(env, o, cfg) &&
      r.value.baseClass == BaseClass(o, cfg) && r.value.uses == Uses(env, o, cfg) &&
      r.value.code == Code(env, r.value.namespaceLine, r.value.uses, r.value.className, r.value.baseClass)
    // target path: dir[/CamelizedSubdir]/<ClassName>.php, the same subdirectory as the namespace suffix
    ensures r.Ok? ==>
      var dir := TrimRight(ConsoleDir(env, LogicsDir(o, cfg).value), Separators);
      (Subdir(env, o) == "" ==> r.value.folder == None && r.value.path == dir + env.ds + r.value.fileName) &&
      (Subdir(env, o) != "" ==>
        r.value.folder == Some(dir + env.ds + Subdir(env, o)) &&
        r.value.path == r.value.folder.value + env.ds + r.value.fileName)
  {
    var sub := Subdir(env, o);
    var namespaceLine := NamespaceLineFor(env, o, cfg);
    var base := BaseClass(o, cfg);
    var uses := Uses(env, o, cfg);
    match LogicsDir(o, cfg)
    case None => Err(MissingOutputDir(Logic))
    case Some(given) =>
      if !Contains(env, o, "name") then Err(NameRequired(Logic))
      else
        var name := Underscored(Get(o, "name"));
        var className := env.camelize(name);
        var dir := TrimRight(ConsoleDir(env, given), Separators);
        var folder := if sub != "" then Some(dir + env.ds + sub) else None;
        var fileName := className + ".php";
        var path := (if sub != "" then dir + env.ds + sub else dir) + env.ds + fileName;
        var code := Code(env, namespaceLine, uses, className, base);
        Ok(ArtifactPlan(Logic, name, className, namespaceLine, uses, base, folder, path, fileName, code))
  }

  /** The skeleton with its tab expanded, for any text put into it. */
  lemma {:induction false} Render(ns: string, uses: string, cn: string, base: string,
                                  h: string, k: string, m: string, a: string, b: string)
    requires '\t' !in h && '\t' !in k && '\t' !in m && '\t' !in a && '\t' !in b
    ensures ExpandTabs(h + ns + uses + k + cn + m + base + a + "\t" + b)
      == h + ExpandTabs(ns) + ExpandTabs(uses) + k + ExpandTabs(cn) + m + ExpandTabs(base) + a + "    " + b
  {
    var p0 := h + ns;
    var p1 := p0 + uses;
    var p2 := p1 + k;
    var p3 := p2 + cn;
    var p4 := p3 + m;
    var p5 := p4 + base;
    var p6 := p5 + a;
    ExpandTabsAfter(p6 + "\t", b);
    ExpandTabsTab(p6);
    ExpandTabsAfter(p5, a);
    ExpandTabsAppend(p4, base);
    ExpandTabsAfter(p3, m);
    ExpandTabsAppend(p2, cn);
    ExpandTabsAfter(p1, k);
    ExpandTabsAppend(p0, uses);
    ExpandTabsBefore(h, ns);
  }

  /** The generated code: "<?php", the namespace and use lines, then
      `class <ClassName> extends <base>` with an empty body.
      ` extends ` is written whatever the base class is. */
  lemma CodeShape(env: Env, namespaceLine: string, uses: seq<string>, className: string, base: string)
    ensures var code := Code(env, namespaceLine, uses, className, base);
      code == "<?php\n\n" + ExpandTabs(namespaceLine) + ExpandTabs(UseBlock(env, uses))
        + "class " + ExpandTabs(className) + " extends " + ExpandTabs(base)
        + "\n{\n" + "    " + "\n}\n\n"
  {
    assert '\t' !in "<?php\n\n" && '\t' !in "class " && '\t' !in " extends " && '\t' !in "\n{\n" &&
      '\t' !in "\n}\n\n";
    Render(namespaceLine, UseBlock(env, uses), className, base,
      "<?php\n\n", "class ", " extends ", "\n{\n", "\n}\n\n");
  }

  /** Render with an empty use block and an empty base class. */
  lemma {:induction false} RenderBare(ns: string, uses: string, cn: string, base: string,
                                      h: string, k: string, m: string, a: string, b: string)
    requires '\t' !in h && '\t' !in k && '\t' !in m && '\t' !in a && '\t' !in b
    requires uses == [] && base == []
    ensures ExpandTabs(h + ns + uses + k + cn + m + base + a + "\t" + b)
      == h + ExpandTabs(ns) + k + ExpandTabs(cn) + m + a + "    " + b
  {
    Render(ns, uses, cn, base, h, k, m, a, b);
    assert ExpandTabs(uses) == [] && ExpandTabs(base) == [];
    assert h + ExpandTabs(ns) + ExpandTabs(uses) == h + ExpandTabs(ns);
    assert h + ExpandTabs(ns) + k + ExpandTabs(cn) + m + ExpandTabs(base) == h + ExpandTabs(ns) + k + ExpandTabs(cn) + m;
  }

  /** With neither a base-class option nor a configured base class the
      generated class still reads `extends` followed directly by the body:
      there is no use block and the base class is empty. */
  lemma BareExtends(env: Env, o: Options, cfg: Config)
    requires Plan(env, o, cfg).Ok?
    requires Get(o, "baseClass") == "" && IsEmpty(cfg.logic.baseClass)
    ensures var p := Plan(env, o, cfg).value;
      p.baseClass == "" && p.uses == [] &&
      p.code == "<?php\n\n" + ExpandTabs(p.namespaceLine) + "class " + ExpandTabs(p.className)
        + " extends " + "\n{\n" + "    " + "\n}\n\n"
  {
    var p := Plan(env, o, cfg).value;
    assert p.code == Code(env, p.namespaceLine, p.uses, p.className, p.baseClass);
    assert '\t' !in "<?php\n\n" && '\t' !in "class " && '\t' !in " extends " && '\t' !in "\n{\n" &&
      '\t' !in "\n}\n\n";
    RenderBare(p.namespaceLine, UseBlock(env, p.uses), p.className, p.baseClass,
      "<?php\n\n", "class ", " extends ", "\n{\n", "\n}\n\n");
  }

  /** Round trip: the returned file name, joined to the resolved directory
      and camelized subdirectory, is the path that now holds the rendered code. */
  lemma ReturnedNameLocatesFile(env: Env, o: Options, cfg: Config, s: State, io: WriteResult)
    ensures var (r, s') := Outcome(env, o, s, Plan(env, o, cfg), io);
      r.Ok? ==>
        var dir := TrimRight(ConsoleDir(env, LogicsDir(o, cfg).value), Separators);
        var folder := if Subdir(env, o) == "" then dir else dir + env.ds + Subdir(env, o);
        EndsWith(r.value, ".php") &&
        folder + env.ds + r.value in s'.files &&
        s'.files[folder + env.ds + r.value] == Plan(env, o, cfg).value.code
  {
  }

  /** build(): resolve the plan, then set the root, create the subdirectory,
      apply the existing-file guard and write. */
  method Build(ws: Workspace, env: Env, o: Options, cfg: Config, io: WriteResult) returns (r: Result<string>)
    modifies ws
    ensures (r, ws.Snapshot()) == Outcome(env, o, old(ws.Snapshot()), Plan(env, o, cfg), io)
  {
    var plan := Plan(env, o, cfg);
    r := ws.Emit(env, o, plan, io);
  }
}
