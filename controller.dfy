/** scripts/Phalcon/Builder/Controller.php: the controller builder. */
module ControllerBuilder {
  import opened PhpStrings
  import opened Builder

  /** The base class when neither option nor configuration names one. */
  const DefaultBase: string := "\\Phalcon\\Mvc\\Controller"

  /** The `subdir` option after Utils::camelizeWithSlash (default separator), or "". */
  function Subdir(env: Env, o: Options): (sub: string)
    ensures !Contains(env, o, "subdir") || Get(o, "subdir") == "" ==> sub == ""
    ensures Contains(env, o, "subdir") && Get(o, "subdir") != "" ==> sub == env.camelizeWithSlash(Get(o, "subdir"), "/")
  {
    var raw := if Contains(env, o, "subdir") then Get(o, "subdir") else "";
    if raw != "" then env.camelizeWithSlash(raw, "/") else ""
  }

  /** $namespaceClass: the base namespace, qualified by the subdirectory when both are non-empty. */
  function Namespace(env: Env, o: Options, cfg: Config): (ns: string)
    ensures ns == "" <==> BaseNamespace(env, o, cfg.controller) == ""
    ensures Subdir(env, o) == "" ==> ns == BaseNamespace(env, o, cfg.controller)
    ensures Subdir(env, o) != "" && ns != "" ==>
      ns == BaseNamespace(env, o, cfg.controller) + "\\" + env.camelizeWithSlash(Subdir(env, o), "\\")
  {
    var base := BaseNamespace(env, o, cfg.controller);
    if Subdir(env, o) != "" && base != "" then base + "\\" + env.camelizeWithSlash(Subdir(env, o), "\\")
    else base
  }

  /** The `controllersDir` option, else a non-empty application.controllersDir, else nothing. */
  function ControllersDir(o: Options, cfg: Config): (d: Option<string>)
    ensures d.None? <==> Get(o, "controllersDir") == "" && IsEmpty(cfg.application.controllersDir)
    ensures Get(o, "controllersDir") != "" ==> d == Some(Get(o, "controllersDir"))
    ensures Get(o, "controllersDir") == "" && d.Some? ==> d == cfg.application.controllersDir && d.value != ""
  {
    if Get(o, "controllersDir") != "" then Some(Get(o, "controllersDir"))
    else if IsEmpty(cfg.application.controllersDir) then None
    else cfg.application.controllersDir
  }

  /** The class skeleton build() writes, tabs expanded. */
  function Code(env: Env, namespaceLine: string, uses: seq<string>, className: string, base: string): (code: string)
    ensures '\t' !in code
  {
    ExpandTabs("<?php\n\n" + namespaceLine + UseBlock(env, uses) + "class " + className
      + "Controller extends " + base
      + "\n{\n\n" + "\t" + "public function indexAction()\n" + "\t" + "{\n\n" + "\t" + "}\n\n}\n\n")
  }

  /** Base class: a truthy option, else \Phalcon\Mvc\Controller for an empty
      configuration, else the configured one. */
  function BaseClass(o: Options, cfg: Config): (base: string)
    ensures Get(o, "baseClass") != "" ==> base == Get(o, "baseClass")
    ensures Get(o, "baseClass") == "" && IsEmpty(cfg.controller.baseClass) ==> base == DefaultBase
    ensures Get(o, "baseClass") == "" && !IsEmpty(cfg.controller.baseClass) ==>
      base == cfg.controller.baseClass.value
  {
    var option := Get(o, "baseClass");
    if option != "" then option
    else if IsEmpty(cfg.controller.baseClass) then DefaultBase
    else cfg.controller.baseClass.value
  }

  /** One use line, exactly when the configured base class is used inside a subdirectory. */
  function Uses(env: Env, o: Options, cfg: Config): (uses: seq<string>)
    ensures |uses| <= 1
    ensures |uses| == 1 <==>
      Get(o, "baseClass") == "" && !IsEmpty(cfg.controller.baseClass) && Subdir(env, o) != ""
    ensures |uses| == 1 ==> uses[0] == UseLine("Controllers", BaseClass(o, cfg))
  {
    if Get(o, "baseClass") == "" && !IsEmpty(cfg.controller.baseClass) && Subdir(env, o) != ""
    then [UseLine("Controllers", BaseClass(o, cfg))]
    else []
  }

  /** Everything build() resolves before touching the filesystem. */
  function Plan(env: Env, o: Options, cfg: Config): (r: Result<ArtifactPlan>)
    // the output directory is checked first, then build()'s own `name` check
    ensures r.Err? <==> ControllersDir(o, cfg).None? || !Contains(env, o, "name")
    ensures ControllersDir(o, cfg).None? ==> r == Err(MissingOutputDir(Controller))
    ensures ControllersDir(o, cfg).Some? && r.Err? ==> r == Err(NameRequired(Controller))
    // names
    ensures r.Ok? ==>
      r.value.kind == Controller && r.value.name == Underscored(Get(o, "name")) &&
      r.value.className == env.camelize(r.value.name) &&
      r.value.fileName == r.value.className + "Controller.php"
    // the resolved pieces of the class
    ensures r.Ok? ==>
      r.value.namespaceLine == OptionalNamespaceLine(env, Namespace(env, o, cfg)) &&
      r.value.baseClass == BaseClass(o, cfg) && r.value.uses == Uses(env, o, cfg) &&
      r.value.code == Code(env, r.value.namespaceLine, r.value.uses, r.value.className, r.value.baseClass)
    // target path: dir[/subdir]/<ClassName>Controller.php, dir without trailing separators
    ensures r.Ok? ==>
      var dir := TrimRight(ConsoleDir(env, ControllersDir(o, cfg).value), Separators);
      (Subdir(env, o) == "" ==> r.value.folder == None && r.value.path == dir + env.ds + r.value.fileName) &&
      (Subdir(env, o) != "" ==>
        r.value.folder == Some(dir + env.ds + Subdir(env, o)) &&
        r.value.path == r.value.folder.value + env.ds + r.value.fileName)
  {
    var sub := Subdir(env, o);
    var namespaceLine := OptionalNamespaceLine(env, Namespace(env, o, cfg));
    var base := BaseClass(o, cfg);
    var uses := Uses(env, o, cfg);
    match ControllersDir(o, cfg)
    case None => Err(MissingOutputDir(Controller))
    case Some(given) =>
      if !Contains(env, o, "name") then Err(NameRequired(Controller))
      else
        var name := Underscored(Get(o, "name"));
        var className := env.camelize(name);
        var dir := TrimRight(ConsoleDir(env, given), Separators);
        var folder := if sub != "" then Some(dir + env.ds + sub) else None;
        var fileName := className + "Controller.php";
        var path := (if sub != "" then dir + env.ds + sub else dir) + env.ds + fileName;
        var code := Code(env, namespaceLine, uses, className, base);
        Ok(ArtifactPlan(Controller, name, className, namespaceLine, uses, base, folder, path, fileName, code))
  }

  /** The skeleton with its tabs expanded, for any text put into it. */
  lemma {:induction false} Render(ns: string, uses: string, cn: string, base: string,
                                  h: string, k: string, m: string, a: string, b: string, c: string, d: string)
    requires '\t' !in h && '\t' !in k && '\t' !in m && '\t' !in a && '\t' !in b && '\t' !in c && '\t' !in d
    ensures ExpandTabs(h + ns + uses + k + cn + m + base + a + "\t" + b + "\t" + c + "\t" + d)
      == h + ExpandTabs(ns) + ExpandTabs(uses) + k + ExpandTabs(cn) + m + ExpandTabs(base)
         + a + "    " + b + "    " + c + "    " + d
  {
    var p0 := h + ns;
    var p1 := p0 + uses;
    var p2 := p1 + k;
    var p3 := p2 + cn;
    var p4 := p3 + m;
    var p5 := p4 + base;
    var p6 := p5 + a;
    var p8 := p6 + "\t" + b;
    var p10 := p8 + "\t" + c;
    ExpandTabsAfter(p10 + "\t", d);
    ExpandTabsTab(p10);
    ExpandTabsAfter(p8 + "\t", c);
    ExpandTabsTab(p8);
    ExpandTabsAfter(p6 + "\t", b);
    ExpandTabsTab(p6);
    ExpandTabsAfter(p5, a);
    ExpandTabsAppend(p4, base);
    ExpandTabsAfter(p3, m);
    ExpandTabsAppend(p2, cn);
    ExpandTabsAfter(p1, k);
    ExpandTabsAppend(p0, uses);
    ExpandTabsBefore(h, ns);
  }

  /** The generated code: "<?php", the namespace and use lines, then
      `class <ClassName>Controller extends <base>` with an empty indexAction,
      indented with four spaces. */
  lemma CodeShape(env: Env, namespaceLine: string, uses: seq<string>, className: string, base: string)
    ensures var code := Code(env, namespaceLine, uses, className, base);
      code == "<?php\n\n" + ExpandTabs(namespaceLine) + ExpandTabs(UseBlock(env, uses))
        + "class " + ExpandTabs(className) + "Controller extends " + ExpandTabs(base)
        + "\n{\n\n" + "    " + "public function indexAction()\n" + "    " + "{\n\n" + "    " + "}\n\n}\n\n"
  {
    assert '\t' !in "<?php\n\n" && '\t' !in "class " && '\t' !in "Controller extends " &&
      '\t' !in "\n{\n\n" && '\t' !in "public function indexAction()\n" && '\t' !in "{\n\n" &&
      '\t' !in "}\n\n}\n\n";
    Render(namespaceLine, UseBlock(env, uses), className, base,
      "<?php\n\n", "class ", "Controller extends ",
      "\n{\n\n", "public function indexAction()\n", "{\n\n", "}\n\n}\n\n");
  }

  /** Round trip: the returned file name, joined to the resolved directory
      and subdirectory, is the path that now holds the rendered code. */
  lemma ReturnedNameLocatesFile(env: Env, o: Options, cfg: Config, s: State, io: WriteResult)
    ensures var (r, s') := Outcome(env, o, s, Plan(env, o, cfg), io);
      r.Ok? ==>
        var dir := TrimRight(ConsoleDir(env, ControllersDir(o, cfg).value), Separators);
        var folder := if Subdir(env, o) == "" then dir else dir + env.ds + Subdir(env, o);
        EndsWith(r.value, "Controller.php") &&
        folder + env.ds + r.value in s'.files &&
        s'.files[folder + env.ds + r.value] == Plan(env, o, cfg).value.code
  {
  }

  /** build(): resolve the plan, then set the root, create the subdirectory,
      apply the existing-file guard and write. */
  method Build(ws: Workspace, env: Env, o: Options, cfg: Config, io: WriteResult) returns (r: Result<string>)
    modifies ws
    ensures (r, ws.Snapshot()) == Outcome(env, o, old(ws.Snapshot()), Plan(env, o, cfg), io)
  {
    var plan := Plan(env, o, cfg);
    r := ws.Emit(env, o, plan, io);
  }
}
