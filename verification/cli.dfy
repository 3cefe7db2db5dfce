/** The command line (`main`): fold the parsed options, validate them in a
    fixed order, derive the names, render the parameters, and either save
    them (`fill`) or deploy them (`deploy`). Every error ends the process
    with exit code 2. */
module Cli {

  import opened Wrappers
  import opened Naming
  import opened Merge
  import opened StackDeploy

  /** One `(opt, arg)` pair, as `getopt` returns it. */
  type Opt = (string, string)

  /** The three settings an option can assign. */
  datatype Field = Environment | Template | ActionName

  predicate IsHelp(opt: string)
  {
    opt == "-h" || opt == "--help"
  }

  /** `opt` assigns `field`. */
  predicate Assigns(opt: string, field: Field)
  {
    match field
    case Environment => opt == "-e" || opt == "--environment"
    case Template => opt == "-t" || opt == "--template"
    case ActionName => opt == "-a" || opt == "--action"
  }

  datatype Settings = Settings(environment: string, template: string, action: string)

  /** The fold's result: a help option ends the run, otherwise the settings. */
  datatype Folded = HelpRequested | Parsed(settings: Settings)

  predicate HelpIn(opts: seq<Opt>)
  {
    exists i :: 0 <= i < |opts| && IsHelp(opts[i].0)
  }

  /** The argument of the last option in `opts` that assigns `field`, or the
      empty string when none does. */
  function LastArgument(opts: seq<Opt>, field: Field): string
  {
    if opts == [] then ""
    else if Assigns(opts[|opts| - 1].0, field) then opts[|opts| - 1].1
    else LastArgument(opts[..|opts| - 1], field)
  }

  /** The settings that folding over `opts` leaves. */
  function Fold(opts: seq<Opt>): Folded
  {
    if HelpIn(opts) then HelpRequested
    else Parsed(Settings(LastArgument(opts, Environment), LastArgument(opts, Template),
                         LastArgument(opts, ActionName)))
  }

  /** The `for opt, arg in opts` loop of `main`: each option overwrites its
      setting, and a help option stops the loop at once. */
  method FoldOptions(opts: seq<Opt>) returns (f: Folded)
    ensures f == Fold(opts)
  {
    var environment, template, action := "", "", "";
    var i := 0;
    while i < |opts|
      invariant 0 <= i <= |opts|
      invariant !HelpIn(opts[..i])
      invariant environment == LastArgument(opts[..i], Environment)
      invariant template == LastArgument(opts[..i], Template)
      invariant action == LastArgument(opts[..i], ActionName)
    {
      var (opt, arg) := opts[i];
      assert opts[..i + 1][..i] == opts[..i];
      if IsHelp(opt) {
        return HelpRequested;
      } else if Assigns(opt, Environment) {
        environment := arg;
      } else if Assigns(opt, Template) {
        template := arg;
      } else if Assigns(opt, ActionName) {
        action := arg;
      }
      i := i + 1;
    }
    assert opts[..i] == opts;
    return Parsed(Settings(environment, template, action));
  }

  /** The last assignment wins: the folded value is the argument of some
      option assigning the field with no later option assigning it, and it is
      empty when no option assigns it. */
  lemma {:induction false} LastAssignmentWins(opts: seq<Opt>, field: Field)
    ensures (forall i :: 0 <= i < |opts| ==> !Assigns(opts[i].0, field)) ==> LastArgument(opts, field) == ""
    ensures (exists i :: 0 <= i < |opts| && Assigns(opts[i].0, field)) ==>
              exists j :: 0 <= j < |opts| && Assigns(opts[j].0, field) && LastArgument(opts, field) == opts[j].1
                          && forall k :: j < k < |opts| ==> !Assigns(opts[k].0, field)
  {
    if opts != [] {
      var last := |opts| - 1;
      var init := opts[..last];
      if Assigns(opts[last].0, field) {
        assert LastArgument(opts, field) == opts[last].1;
      } else {
        assert LastArgument(opts, field) == LastArgument(init, field);
        LastAssignmentWins(init, field);
        forall i | 0 <= i < |init| ensures init[i] == opts[i] { }
        if exists i :: 0 <= i < |opts| && Assigns(opts[i].0, field) {
          var i :| 0 <= i < |opts| && Assigns(opts[i].0, field);
          assert i < |init| && Assigns(init[i].0, field);
          var j :| 0 <= j < |init| && Assigns(init[j].0, field) && LastArgument(init, field) == init[j].1
                   && forall k :: j < k < |init| ==> !Assigns(init[k].0, field);
          assert forall k :: j < k < |opts| ==> !Assigns(opts[k].0, field);
        }
      }
    }
  }

  /** `Actions` values. */
  const SupportedActions: seq<string> := ["fill", "deploy"]

  datatype Action = Fill | DeployAction

  /** The validation failures of `main`. */
  datatype CliError = ActionMissing | ActionUnsupported(action: string) | EnvironmentMissing | TemplateMissing

  /** The checks of `main` in their order: the first one that fails decides
      the error. */
  function Validate(s: Settings): (r: Result<Action, CliError>)
    ensures r == Err(ActionMissing) <==> s.action == ""
    ensures r == Err(ActionUnsupported(s.action)) <==> s.action != "" && s.action !in SupportedActions
    ensures r == Err(EnvironmentMissing) <==> s.action in SupportedActions && s.environment == ""
    ensures r == Err(TemplateMissing) <==> s.action in SupportedActions && s.environment != "" && s.template == ""
    ensures r.Ok? <==> s.action in SupportedActions && s.environment != "" && s.template != ""
    ensures r.Ok? ==> (r.value == Fill <==> s.action == "fill")
  {
    if s.action == "" then Err(ActionMissing)
    else if s.action !in SupportedActions then Err(ActionUnsupported(s.action))
    else if s.environment == "" then Err(EnvironmentMissing)
    else if s.template == "" then Err(TemplateMissing)
    else Ok(if s.action == "fill" then Fill else DeployAction)
  }

  /** Everything outside the script that a run depends on. */
  datatype World = World(
    files: map<string, string>,                         // the regular files and their text
    loadYaml: string -> Option<ValueSet>,               // `yaml.safe_load`; None when it raises or gives no mapping
    render: (string, ValueSet) -> Option<Parameters>,   // Jinja2 render, `eval` and `list`; None when any raises
    writable: bool,                                     // whether the output file can be written
    remote: Remote)

  /** How a run ends: the exit code, the remote requests issued and the file
      written (its name and the parameter list saved in it). */
  datatype RunResult = RunResult(exitCode: nat, calls: seq<Call>, written: Option<(string, Parameters)>)

  const Failed: RunResult := RunResult(2, [], None)

  /** Opening and loading one values file. */
  function LoadValues(world: World, path: string): Option<ValueSet>
  {
    if path in world.files then world.loadYaml(world.files[path]) else None
  }

  /** The merged values `merge_vars_file` returns, or None when it exits. */
  function MergedValues(init: Init, world: World): Option<ValueSet>
  {
    match (LoadValues(world, CommonFilePath), LoadValues(world, init.valuesFile))
    case (Some(common), Some(custom)) => Some(Merged(custom, common))
    case _ => None
  }

  /** `fill_json`: read the parameter template, merge the values and render.
      It fails when the parameter template cannot be read, when either
      values file does not load, or when rendering fails; otherwise the
      parameters are the template rendered with the merged values. */
  function FillJson(init: Init, world: World): (p: Option<Parameters>)
    ensures var common := LoadValues(world, CommonFilePath);
            var custom := LoadValues(world, init.valuesFile);
            if init.jsonFile in world.files && common.Some? && custom.Some?
            then p == world.render(world.files[init.jsonFile], Merged(custom.value, common.value))
            else p.None?
  {
    if init.jsonFile !in world.files then None
    else match MergedValues(init, world)
      case None => None
      case Some(values) => world.render(world.files[init.jsonFile], values)
  }

  /** A whole run of `main` on the parsed options. Every run exits with 0
      or 2; a run that writes a file exits with 0 and sends no request; a
      run that sends requests starts with the describe. */
  function Invocation(opts: seq<Opt>, world: World): (o: RunResult)
    requires ValidRemote(world.remote)
    ensures o.exitCode == 0 || o.exitCode == 2
    ensures o.written.Some? ==> o.exitCode == 0 && o.calls == []
    ensures o.calls != [] ==> o.calls[0].DescribeStacks?
  {
    match Fold(opts)
    case HelpRequested => Failed
    case Parsed(s) =>
      match Validate(s)
      case Err(_) => Failed
      case Ok(action) =>
        match InitVariables(s.environment, s.template, world.files)
        case Err(_) => Failed
        case Ok(init) =>
          match FillJson(init, world)
          case None => Failed
          case Some(parameters) =>
            if action == DeployAction then
              var r := DeployStack(init.stackName, init.stackBody, parameters, world.remote);
              RunResult(r.exitCode, r.calls, None)
            else if world.writable then
              RunResult(0, [], Some((OutputFileName(init.stackName, "json"), parameters)))
            else Failed
  }

  /** `main`, step by step. */
  method Execute(opts: seq<Opt>, world: World) returns (o: RunResult)
    requires ValidRemote(world.remote)
    ensures o == Invocation(opts, world)
  {
    var folded := FoldOptions(opts);
    if folded.HelpRequested? {
      return Failed;
    }
    var s := folded.settings;
    var action := Validate(s);
    if action.Err? {
      return Failed;
    }
    var init := InitVariables(s.environment, s.template, world.files);
    if init.Err? {
      return Failed;
    }
    var names := init.value;
    if names.jsonFile !in world.files {
      return Failed;
    }
    var parameterFile := world.files[names.jsonFile];
    var values := MergeVarsFile(LoadValues(world, CommonFilePath), LoadValues(world, names.valuesFile));
    if values.None? {
      return Failed;
    }
    assert MergedValues(names, world) == values;
    var filled := world.render(parameterFile, values.value);
    if filled.None? {
      return Failed;
    }
    if action.value == DeployAction {
      var r := DeployStack(names.stackName, names.stackBody, filled.value, world.remote);
      return RunResult(r.exitCode, r.calls, None);
    }
    if !world.writable {
      return Failed;
    }
    return RunResult(0, [], Some((OutputFileName(names.stackName, "json"), filled.value)));
  }

  /** A help option anywhere ends the run with exit code 2 before any
      validation, file access or remote request. */
  lemma HelpExits(opts: seq<Opt>, world: World, i: nat)
    requires ValidRemote(world.remote)
    requires i < |opts| && IsHelp(opts[i].0)
    ensures Invocation(opts, world) == RunResult(2, [], None)
  {
  }

  /** A validation error ends the run with exit code 2, with no remote
      request and nothing written, whatever the files and the remote side. */
  lemma ValidationErrorExits(opts: seq<Opt>, world: World)
    requires ValidRemote(world.remote)
    requires Fold(opts).Parsed? && Validate(Fold(opts).settings).Err?
    ensures Invocation(opts, world) == RunResult(2, [], None)
  {
  }

  /** A missing values file, template or parameter template ends the run
      with exit code 2 before any remote request. */
  lemma MissingFileExits(opts: seq<Opt>, world: World)
    requires ValidRemote(world.remote)
    requires Fold(opts).Parsed? && Validate(Fold(opts).settings).Ok?
    requires var s := Fold(opts).settings;
             || ValuesFile(s.environment) !in world.files
             || s.template !in world.files
             || JsonFile(s.template) !in world.files
    ensures Invocation(opts, world) == RunResult(2, [], None)
  {
  }

  /** Only `fill` writes a file, and only `deploy` talks to the remote
      service; no run does both. */
  lemma InvocationShape(opts: seq<Opt>, world: World)
    requires ValidRemote(world.remote)
    ensures var o := Invocation(opts, world);
            && (o.written.Some? ==> Fold(opts).Parsed? && Fold(opts).settings.action == "fill")
            && (o.calls != [] ==> o.written.None? && Fold(opts).Parsed? && Fold(opts).settings.action == "deploy")
  {
  }

  /** A values file that does not load (the shared defaults included,
      which no check looks for beforehand), a render that fails, or a
      `fill` whose output cannot be written ends the run with exit code 2,
      with no remote request and nothing written. */
  lemma LateFailureExits(opts: seq<Opt>, world: World)
    requires ValidRemote(world.remote)
    requires Fold(opts).Parsed? && Validate(Fold(opts).settings).Ok?
    requires var s := Fold(opts).settings;
             var init := InitVariables(s.environment, s.template, world.files);
             && init.Ok?
             && (FillJson(init.value, world).None? || (s.action == "fill" && !world.writable))
    ensures Invocation(opts, world) == RunResult(2, [], None)
  {
  }

  /** A run ends with exit code 0 exactly when every step succeeds: the
      options parse and validate, the three files exist, both values files
      load and the parameters render, and then either the output can be
      written (`fill`) or the probe does not fail and both the create request
      and the wait return (`deploy`). */
  lemma InvocationSucceedsIff(opts: seq<Opt>, world: World)
    requires ValidRemote(world.remote)
    ensures Invocation(opts, world).exitCode == 0 <==>
            && Fold(opts).Parsed?
            && (var s := Fold(opts).settings;
                var init := InitVariables(s.environment, s.template, world.files);
                && Validate(s).Ok?
                && init.Ok?
                && FillJson(init.value, world).Some?
                && (if s.action == "fill" then world.writable
                    else (world.remote.describe.Returned? || world.remote.describe.RaisedClientError?)
                         && world.remote.create.Returned? && world.remote.wait.Returned?))
  {
    if Fold(opts).Parsed? {
      var s := Fold(opts).settings;
      var init := InitVariables(s.environment, s.template, world.files);
      if Validate(s).Err? {
        ValidationErrorExits(opts, world);
      } else if init.Err? {
        assert Invocation(opts, world) == Failed;
      } else if FillJson(init.value, world).None? {
        LateFailureExits(opts, world);
      } else if s.action == "fill" {
        assert Validate(s) == Ok(Fill);
      } else {
        DeployUsesDerivedStack(opts, world);
        DeploySucceedsIff(init.value.stackName, init.value.stackBody, FillJson(init.value, world).value, world.remote);
      }
    }
  }

  /** A successful `fill` saves the rendered parameters in the file named
      after the stack: `ct-<environment>-base-<clean name>-stack.json`. */
  lemma FillSavesUnderStackName(opts: seq<Opt>, world: World)
    requires ValidRemote(world.remote)
    requires Fold(opts).Parsed? && Fold(opts).settings.action == "fill"
    requires Invocation(opts, world).exitCode == 0
    ensures var s := Fold(opts).settings;
            var init := InitVariables(s.environment, s.template, world.files);
            var o := Invocation(opts, world);
            && o.calls == []
            && o.written.Some?
            && o.written.value.0 == StackName(s.environment, CleanName(TemplateFileName(s.template))) + ".json"
            && init.Ok? && FillJson(init.value, world).Some?
            && o.written.value.1 == FillJson(init.value, world).value
  {
  }

  /** `deploy` issues exactly the requests of `deploy_stack` for the derived
      stack, with the template's text and the rendered parameters, once the
      files exist and the parameters render, and ends as it ends. */
  lemma DeployUsesDerivedStack(opts: seq<Opt>, world: World)
    requires ValidRemote(world.remote)
    requires Fold(opts).Parsed? && Fold(opts).settings.action == "deploy"
    requires var s := Fold(opts).settings;
             var init := InitVariables(s.environment, s.template, world.files);
             && Validate(s).Ok? && init.Ok? && FillJson(init.value, world).Some?
    ensures var s := Fold(opts).settings;
            var init := InitVariables(s.environment, s.template, world.files).value;
            var r := DeployStack(init.stackName, init.stackBody, FillJson(init, world).value, world.remote);
            && init.stackName == StackName(s.environment, CleanName(TemplateFileName(s.template)))
            && init.stackBody == world.files[s.template]
            && Invocation(opts, world) == RunResult(r.exitCode, r.calls, None)
  {
  }

  /** `-e <env> -t <template> -a <action>` folds to those three settings. */
  lemma FoldThreeOptions(env: string, template: string, action: string)
    ensures Fold([("-e", env), ("-t", template), ("-a", action)]) == Parsed(Settings(env, template, action))
  {
    var opts := [("-e", env), ("-t", template), ("-a", action)];
    assert !HelpIn(opts) by {
      forall i | 0 <= i < |opts| ensures !IsHelp(opts[i].0) { }
    }
    var two := opts[..2];
    assert two == [opts[0], opts[1]] && two[..1] == [opts[0]] && two[..1][..0] == [];
    assert LastArgument(opts, ActionName) == action;
    assert LastArgument(two, Template) == template;
    assert LastArgument(opts, Template) == template;
    assert LastArgument(two[..1], Environment) == env;
    assert LastArgument(two, Environment) == env;
    assert LastArgument(opts, Environment) == env;
  }

  /** `-e prod -t templates/vpc.yaml -a fill`, with all four files present,
      loadable and renderable, saves the parameters to
      `ct-prod-base-vpc-stack.json` and issues no remote request. The
      template path is assembled from its parts. */
  lemma ProdVpcFillExample(env: string, dir: string, stem: string, world: World)
    requires ValidRemote(world.remote)
    requires env == "prod" && dir == "templates" && stem == "vpc"
    requires CommonFilePath in world.files && "cf_vars/prod.yml" in world.files
    requires dir + "/" + stem + ".yaml" in world.files && "templates/vpc.json" in world.files
    requires forall text :: world.loadYaml(text).Some?
    requires forall text, values :: world.render(text, values).Some?
    requires world.writable
    ensures var o := Invocation([("-e", env), ("-t", dir + "/" + stem + ".yaml"), ("-a", "fill")], world);
            && o.exitCode == 0 && o.calls == []
            && o.written.Some? && o.written.value.0 == "ct-prod-base-vpc-stack.json"
  {
    var template := dir + "/" + stem + ".yaml";
    FoldThreeOptions(env, template, "fill");
    ProdVpcExample(env, dir, stem);
  }

  /** The same run with `-a deploy` against a stack that does not exist:
      one describe, one stack creation with the template's text, one wait,
      no change set, exit code 0. */
  lemma ProdVpcDeployAbsentExample(env: string, dir: string, stem: string, world: World)
    requires ValidRemote(world.remote)
    requires env == "prod" && dir == "templates" && stem == "vpc"
    requires CommonFilePath in world.files && "cf_vars/prod.yml" in world.files
    requires dir + "/" + stem + ".yaml" in world.files && "templates/vpc.json" in world.files
    requires forall text :: world.loadYaml(text).Some?
    requires forall text, values :: world.render(text, values).Some?
    requires world.remote.describe.RaisedClientError?
    requires world.remote.create.Returned? && world.remote.wait.Returned?
    ensures var template := dir + "/" + stem + ".yaml";
            var o := Invocation([("-e", env), ("-t", template), ("-a", "deploy")], world);
            && o.exitCode == 0 && o.written.None? && |o.calls| == 3
            && o.calls[0] == DescribeStacks("ct-prod-base-vpc-stack")
            && o.calls[1].CreateStack? && o.calls[1].stackName == "ct-prod-base-vpc-stack"
            && o.calls[1].templateBody == world.files[template] && o.calls[1].capabilities == [NamedIam]
            && o.calls[2] == WaitStackCreateComplete("ct-prod-base-vpc-stack", 10)
            && CountChangeSets(o.calls) == 0
  {
    var template := dir + "/" + stem + ".yaml";
    FoldThreeOptions(env, template, "deploy");
    ProdVpcExample(env, dir, stem);
    var init := InitVariables(env, template, world.files).value;
    var parameters := FillJson(init, world).value;
    DeployDispatch(init.stackName, init.stackBody, parameters, world.remote);
  }

}
