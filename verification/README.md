# Deployment template compiler: a Dafny model

`compile_and_execute_template.py` takes an environment name, a CloudFormation
template path and an action (`fill` or `deploy`). From these it derives:

- the environment's values file;
- the template basename and directory;
- a "clean" name without the `.yaml`/`.yml` extension;
- the companion `.json` parameter template;
- the stack name `ct-<env>-base-<clean>-stack`.

It then merges the shared defaults (`cf_vars/common.yml`) into the
environment's values, with the shared defaults winning on conflicts, and
renders the parameter template. With `fill` it saves the result to
`<stack name>.json`. With `deploy` it asks the service whether the stack
exists, then either proposes a change set named `<stack name>-<6 random
upper-case letters or digits>` or creates the stack, and waits for the
result. Every error ends the process with exit code 2.

The model has these modules:

- `PyStr` holds the two Python string operations the path logic uses:
  `split('/')[-1]` and `replace(x, '')`. `replace` is modelled as Python
  runs it: it deletes every non-overlapping occurrence, scanning from the
  left.
- `Naming` covers `init_variables` and the file name of `save_to_file`.
- `Merge` covers `merge_vars_file`. The environment's dictionary is a
  `Dict` object whose `Update` changes it in place.
- `ChangeSetId` covers `id_generator`. The random source is an explicit
  sequence of choice indices.
- `StackDeploy` covers `stack_exists`, `create_change_set`, `create_stack`
  and `deploy_stack`. Each request that leaves the process is recorded as
  a `Call` value. How each step ends is an input. A step that fails before
  its request is sent records nothing; this happens when creating the
  client or waiter fails, or when the client rejects the parameters.
- `Cli` covers `main`. The option loop is the method `FoldOptions`. The
  whole run is the method `Execute`, which is proved equal to the function
  `Invocation`. The files, YAML loading, rendering, write permission and
  remote outcomes are inputs collected in a `World`.

Three behaviours of the script as written are kept and proved:

- Any `ClientError` from the describe call counts as "stack absent", not
  only a not-found error.
- The directory part is not a suffix strip. When the directory name starts
  with the basename, that occurrence is deleted too, so
  `vpc.yaml.d/vpc.yaml` looks for `.d/vpc.json`
  (`Naming.DirectoryStartingWithBasename`).
- The stack name does not determine the environment and template together:
  `ct-a-base-b-base-c-stack` belongs both to environment `a-base-b` with
  template `c` and to environment `a` with template `b-base-c`
  (`Naming.StackNameCollision`).

Two other choices of the script would be made differently in a safer
version, and the model follows the script in both. The rendered parameters
go through `eval` rather than a structured-data parse. A transient error
from the describe call, such as throttling, counts as "absent" rather than
ending the run.

## Model

| member | source | states |
|---|---|---|
| `PyStr.LastSegment` | compile_and_execute_template.py:212 | `t.split('/')[-1]` contains no '/', is a suffix of `t`, and is preceded in `t` by '/' whenever it is shorter than `t` |
| `PyStr.RemoveAll` | compile_and_execute_template.py:215-218 | `s.replace(pat, '')` is never longer than `s`, and an empty pattern leaves `s` unchanged |
| `PyStr.LastSegmentWithoutSeparator` | compile_and_execute_template.py:212 | a path without '/' is its own basename |
| `PyStr.LastSegmentAfterSeparator` | compile_and_execute_template.py:212 | the basename of `dir/seg`, where `seg` has no '/', is `seg` |
| `PyStr.SplitAtLastSegment` | compile_and_execute_template.py:212 | what precedes the basename is empty or ends in '/', and it and the basename together give the path |
| `PyStr.RemoveAllAbsent` | compile_and_execute_template.py:215-218 | replacing a pattern that does not occur leaves the string unchanged |
| `PyStr.RemoveAllOnlySuffix` | compile_and_execute_template.py:215 | when the pattern occurs only as a suffix, `replace` strips exactly that suffix |
| `PyStr.RemoveAllLeading` | compile_and_execute_template.py:215 | a leading occurrence is deleted and the scan resumes after it |
| `PyStr.RemoveAllAtFirstOccurrence` | compile_and_execute_template.py:215-218 | on any input, `replace` keeps everything before the first occurrence, deletes it and resumes the scan right after it. With `PyStr.RemoveAllAbsent` this covers every input |
| `Naming.InitVariables` | compile_and_execute_template.py:205-240 | the values file, the template and the parameter template are checked in that order, and the first missing one is the error. On success the record holds `cf_vars/<env>.yml`, the basename, the `.json` path, `ct-<env>-base-<clean>-stack` and the template's text |
| `Naming.TemplateFileNameIsLastSegment` | compile_and_execute_template.py:212 | the basename has no '/' and equals the path when the path has no '/' |
| `Naming.PathSplit` | compile_and_execute_template.py:212-220 | when the basename occurs in the path only as its final segment, the directory part is the path minus the basename and is empty or ends in '/'. The parameter template is then `<dir><clean>.json` |
| `Naming.CleanNameStripsExtension` | compile_and_execute_template.py:217-218 | `foo.yaml` and `foo.yml` both give the clean name `foo`, for every stem without '.' |
| `Naming.StandardLayout` | compile_and_execute_template.py:207-224 | `dir/stem.yaml` and `dir/stem.yml`, where the stem has no '.' or '/' and the basename does not occur inside `dir`, give the directory `dir/`, the clean name `stem` and the parameter template `dir/stem.json` |
| `Naming.StandardLayoutFreshInitial` | compile_and_execute_template.py:207-224 | the usual layout holds in particular when the stem is non-empty and its first character does not occur in `dir` |
| `Naming.Ec2Example` | compile_and_execute_template.py:207-220 | `templates/ec2.yaml`, whose stem shares letters with the directory name, gives the directory `templates/` and the parameter template `templates/ec2.json` |
| `Naming.StackNameDeterminesCleanName` | compile_and_execute_template.py:224 | for one environment, different clean names give different stack names |
| `Naming.StackNameDeterminesEnvironment` | compile_and_execute_template.py:224 | for one clean name, different environments give different stack names |
| `Naming.StackNameCollision` | compile_and_execute_template.py:224 | two different (environment, clean name) pairs can give the same stack name |
| `Naming.FillOutputName` | compile_and_execute_template.py:193-195 | the file saved is the stack name followed by `.json` |
| `Naming.ProdVpcExample` | compile_and_execute_template.py:205-224 | `prod` with `templates/vpc.yaml` gives `cf_vars/prod.yml`, `templates/vpc.json`, `ct-prod-base-vpc-stack` and the output `ct-prod-base-vpc-stack.json` |
| `Naming.DirectoryStartingWithBasename` | compile_and_execute_template.py:214-215 | for a basename `b` without '/' that does not occur inside `d`, the path `b` + `d/` + `b` has basename `b` and directory part `d/`. `replace` also deletes the leading occurrence, so the directory part is not the path minus the basename |
| `Naming.DirectoryStartingWithBasenameExample` | compile_and_execute_template.py:214-220 | `vpc.yaml.d/vpc.yaml` gives the directory part `.d/` and the parameter template `.d/vpc.json` |
| `Merge.Merged` | compile_and_execute_template.py:155 | the merge has the keys of both files. Shared defaults win on every key they define. Keys only the environment defines keep their environment value |
| `Merge.Dict.Update` | compile_and_execute_template.py:155 | `update` changes the dictionary in place to the merge of its old entries with the other mapping |
| `Merge.MergeVarsFile` | compile_and_execute_template.py:149-161 | the merge succeeds exactly when both files load. Its result is the union of both key sets, shared values win, and environment-only keys pass through |
| `Merge.SharedDefaultsWin` | compile_and_execute_template.py:151-157 | an environment key is changed by the merge exactly when the shared defaults define it with a different value |
| `Merge.MergeIdempotent` | compile_and_execute_template.py:155 | updating twice with the same shared defaults gives the same result as updating once |
| `Merge.MergeCommutesWithoutConflict` | compile_and_execute_template.py:155 | the order of the update matters exactly when the two files give a key different values |
| `ChangeSetId.CharsAreUpperAndDigits` | compile_and_execute_template.py:25 | the alphabet is the 26 upper-case letters followed by the 10 digits |
| `ChangeSetId.IndexOf` | compile_and_execute_template.py:25 | every upper-case letter or digit has a position in the alphabet |
| `ChangeSetId.IdGenerator` | compile_and_execute_template.py:25-26 | the id has `size` characters, the i-th being the alphabet character chosen by the i-th random choice, and every one is an upper-case letter or digit |
| `ChangeSetId.ChoicesOf` | compile_and_execute_template.py:25-26 | every id of upper-case letters and digits maps to a valid sequence of choices of its length |
| `ChangeSetId.IdRoundTrip` | compile_and_execute_template.py:25-26 | generating from `ChoicesOf(id)` gives back `id`, and `ChoicesOf` of a generated id gives back the choices |
| `ChangeSetId.IdGeneratorInjective` | compile_and_execute_template.py:25-26 | different random choices give different ids |
| `ChangeSetId.ChangeSetNameFormat` | compile_and_execute_template.py:64-66 | a change-set name starts with the stack name and '-', is 7 characters longer than the stack name, and ends in upper-case letters and digits |
| `ChangeSetId.ChangeSetNameInjective` | compile_and_execute_template.py:66 | for ids of equal length, the change-set name determines the stack name and the id |
| `StackDeploy.StackExists` | compile_and_execute_template.py:29-41 | a describe that returns means the stack exists. Any `ClientError`, whatever its code, means it is absent. Any other exception escapes, whether raised before the request was sent or after |
| `StackDeploy.CreateChangeSetRun` | compile_and_execute_template.py:59-92 | the change-set request, carrying the generated name, body, parameters and `CAPABILITY_NAMED_IAM`, is sent unless the step fails before sending. A wait with delay 10 on that change set follows exactly when the request returned and the wait is sent. The run succeeds exactly when both return |
| `StackDeploy.CreateStackRun` | compile_and_execute_template.py:95-120 | the stack request with `CAPABILITY_NAMED_IAM` is sent unless the step fails before sending. A wait with delay 10 follows exactly when the request returned and the wait is sent. The run succeeds exactly when both return |
| `StackDeploy.DeployStack` | compile_and_execute_template.py:123-146 | the first request is the describe of the stack. No request at all is sent exactly when the describe step fails before sending. The exit code is 0 or 2 |
| `StackDeploy.DeployDispatch` | compile_and_execute_template.py:131-140 | an existing stack gets one change-set request and no stack creation. An absent stack gets one stack creation and no change set. Either request is missing when its step fails before sending. A failed probe gets neither |
| `StackDeploy.RequestsCarryCapabilitiesAndDelay` | compile_and_execute_template.py:68-82 | every mutating request carries `['CAPABILITY_NAMED_IAM']` and the stack's name, body and parameters. Every wait polls with `Delay` 10 |
| `StackDeploy.WaitFollowsItsCreate` | compile_and_execute_template.py:59-120 | a wait comes only right after its own create request returned, it waits on that change set or stack, and no request follows it |
| `StackDeploy.ChangeSetNamedAfterStack` | compile_and_execute_template.py:64-74 | when the stack exists and the change-set request is sent, the proposed change set is named the stack name, '-', and six upper-case letters or digits |
| `StackDeploy.DeploySucceedsIff` | compile_and_execute_template.py:123-146 | a deployment ends with exit code 0 exactly when the describe returns or raises a `ClientError`, and both the create request and the wait return |
| `Cli.FoldOptions` | compile_and_execute_template.py:253-262 | the option loop gives the fold: help anywhere stops it, otherwise each setting is its last assignment |
| `Cli.LastAssignmentWins` | compile_and_execute_template.py:253-262 | a setting is the argument of the last option that assigns it, or empty when no option does |
| `Cli.FoldThreeOptions` | compile_and_execute_template.py:253-262 | `-e E -t T -a A` gives environment E, template T and action A |
| `Cli.Validate` | compile_and_execute_template.py:264-274 | the checks run in the order missing action, unsupported action (only `fill` and `deploy`), missing environment, missing template. Each error holds exactly when its check is the first to fail |
| `Cli.FillJson` | compile_and_execute_template.py:164-178 | the parameters are the parameter template rendered with the merged values. The step fails when the parameter template is missing, when either values file does not load, or when rendering fails |
| `Cli.Invocation` | compile_and_execute_template.py:243-291 | every run of `main` exits with 0 or 2. A run that writes a file exits with 0 and sends no request. A run that sends requests starts with the describe |
| `Cli.Execute` | compile_and_execute_template.py:243-291 | the step-by-step `main` computes exactly the run `Invocation` describes |
| `Cli.HelpExits` | compile_and_execute_template.py:254-256 | `-h` or `--help` anywhere ends the run with code 2, with no request and no file written |
| `Cli.ValidationErrorExits` | compile_and_execute_template.py:264-274 | every validation error ends the run with code 2, with no request and no file written |
| `Cli.MissingFileExits` | compile_and_execute_template.py:181-190 | a missing values file, template or parameter template ends the run with code 2 before any remote request |
| `Cli.LateFailureExits` | compile_and_execute_template.py:149-202 | a values file that does not load (the unchecked `cf_vars/common.yml` included), a failed render or `eval`, or an unwritable `fill` output ends the run with code 2, with no request and no file written |
| `Cli.InvocationSucceedsIff` | compile_and_execute_template.py:243-291 | a run exits with 0 exactly when every step succeeds. The options parse and validate, the files exist, both values files load and the parameters render. Then the output is writable (`fill`), or the describe returns or raises a `ClientError` and both the create request and the wait return (`deploy`) |
| `Cli.InvocationShape` | compile_and_execute_template.py:276-291 | only `fill` writes a file and only `deploy` sends requests. No run does both |
| `Cli.FillSavesUnderStackName` | compile_and_execute_template.py:276-284 | a successful `fill` sends no request and writes `ct-<env>-base-<clean>-stack.json`, and the file holds exactly the parameters `fill_json` rendered |
| `Cli.DeployUsesDerivedStack` | compile_and_execute_template.py:276-280 | once the options validate, the files exist and the parameters render, `deploy` ends exactly as `deploy_stack` does for the derived stack name, the template's text and the rendered parameters: the same requests and the same exit code, with nothing written |
| `Cli.ProdVpcFillExample` | compile_and_execute_template.py:276-284 | `-e prod -t templates/vpc.yaml -a fill` writes `ct-prod-base-vpc-stack.json` with exit code 0 and no request |
| `Cli.ProdVpcDeployAbsentExample` | compile_and_execute_template.py:276-280 | the same with `deploy` on an absent stack issues a describe, one stack creation and one wait, with no change set and exit code 0 |

## Left out

- `getopt.getopt`: the model starts from the parsed `(opt, arg)` list. Unknown options and missing arguments, which make `getopt` raise and end the run with 2, are not modelled.
- YAML loading: `World.loadYaml` is an input. It gives None when loading raises or the document is not a mapping. Python's `update` would accept a list of key/value pairs as the shared defaults; that case is read as a failure.
- Jinja2 rendering, `eval` of the rendered text and `list(...)`: `World.render` is an input, since neither library has semantics that can be stated here. The parameter list is a list of string maps.
- `json.dumps(..., sort_keys=True, indent=4)`: the model records which parameter list is saved and under which name, not the text written.
- File I/O: which paths are regular files, and their text, are the `World.files` map. A file that exists when checked is assumed readable when opened. Whether the output file can be written is the boolean `World.writable`.
- boto3, the service and waiter polling: each request that leaves the process is recorded as a `Call`. How each step ends is an input (`Returned`, `RaisedClientError`, `RaisedOther`, `RaisedBeforeSending`). A wait stands for all of its polls, and the waiters' own attempt limit is part of the wait outcome. Which botocore errors arise before sending is not modelled; the outcome says so.
- `get_changes`: not modelled, because its only call site is commented out.
- The `random` module: the id's random choices are the input `Remote.choices`. `StackDeploy.DeployStack` requires that this source can serve one valid six-character id, as `random.choice` always can.
- `print` and `traceback` output: logging only. The exit code is 0 when `main` returns and 2 for every `sys.exit(2)`.
- YAML floats, dates and other scalar kinds are not in the `Yaml` value type. The merge never looks at values.
- YAML mapping keys are modelled as strings, and mapping order is dropped (`ValueSet` and `Yaml.Mapping` are Dafny maps). A document with non-string keys such as `80: http` is outside the model. `World.render` is assumed not to depend on key order, although Python's `update` keeps insertion order and a Jinja2 loop over a mapping would show it.
