/** The remote half of a deployment: `stack_exists`, `create_change_set`,
    `create_stack` and `deploy_stack`. The remote service is not modelled;
    each request that leaves the process is recorded as a `Call`, and how
    each step ends is an input. */
module StackDeploy {

  import opened ChangeSetId

  /** How one step that talks to the remote service ended: it returned, it
      raised a `ClientError` (with the service's error code), it raised any
      other exception after its request was sent (a waiter giving up, say),
      or it raised before any request left the process (creating the client
      or the waiter failed, for instance for want of a configured region, or
      the client rejected the parameters itself). */
  datatype Outcome = Returned | RaisedClientError(code: string) | RaisedOther | RaisedBeforeSending

  /** The rendered parameter list sent with the template. */
  type Parameters = seq<map<string, string>>

  /** The capability acknowledgement sent with every mutating request. */
  const NamedIam: string := "CAPABILITY_NAMED_IAM"

  /** The waiters' `Delay`, in seconds between polls. */
  const WaiterDelay: nat := 10

  /** A request sent to the stack-management service. */
  datatype Call =
    | DescribeStacks(stackName: string)
    | CreateChangeSet(stackName: string, templateBody: string, parameters: Parameters,
                      changeSetName: string, capabilities: seq<string>)
    | CreateStack(stackName: string, templateBody: string, parameters: Parameters,
                  capabilities: seq<string>)
    | WaitChangeSetCreateComplete(changeSetName: string, stackName: string, delay: nat)
    | WaitStackCreateComplete(stackName: string, delay: nat)
  {
    /** A request that changes the remote stack. */
    predicate Mutates()
    {
      CreateChangeSet? || CreateStack?
    }

    predicate IsWait()
    {
      WaitChangeSetCreateComplete? || WaitStackCreateComplete?
    }
  }

  /** What the remote side does in one run: how the describe, the create
      request and the wait end, and the random source of the change-set id. */
  datatype Remote = Remote(describe: Outcome, create: Outcome, wait: Outcome, choices: seq<nat>)

  /** The random source can serve one change-set id. */
  predicate ValidRemote(remote: Remote)
  {
    DefaultSize <= |remote.choices| && ValidChoices(remote.choices)
  }

  /** The requests sent and the exit code: 0 when the run returns, 2 when
      it ends through `sys.exit(2)`. */
  datatype Run = Run(calls: seq<Call>, exitCode: nat)

  /** The requests a step leaves behind: its request, unless the step failed
      before sending it. */
  function Sent(call: Call, outcome: Outcome): seq<Call>
  {
    if outcome.RaisedBeforeSending? then [] else [call]
  }

  /** `stack_exists` as seen by its caller: whether the stack exists, or the
      exception that escapes it. */
  datatype Probe = Exists(present: bool) | ProbeFailed

  /** A describe that returns means the stack exists; any `ClientError`,
      whatever its code, means it does not; any other exception, whether
      raised before or after sending, escapes. */
  function StackExists(describe: Outcome): (p: Probe)
    ensures p == Exists(true) <==> describe.Returned?
    ensures p == Exists(false) <==> describe.RaisedClientError?
    ensures p == ProbeFailed <==> describe.RaisedOther? || describe.RaisedBeforeSending?
  {
    match describe
    case Returned => Exists(true)
    case RaisedClientError(_) => Exists(false)
    case RaisedOther => ProbeFailed
    case RaisedBeforeSending => ProbeFailed
  }

  /** The change-set name `create_change_set` uses. */
  function NewChangeSetName(stackName: string, remote: Remote): string
    requires ValidRemote(remote)
  {
    ChangeSetName(stackName, IdGenerator(DefaultSize, remote.choices))
  }

  /** `create_change_set`: request the change set, then wait for it; a
      failure of either ends the run. */
  function CreateChangeSetRun(stackName: string, body: string, parameters: Parameters, remote: Remote): (r: Run)
    requires ValidRemote(remote)
    ensures |r.calls| <= 2
    ensures r.calls == [] <==> remote.create.RaisedBeforeSending?
    ensures r.calls != [] ==>
            && r.calls[0].CreateChangeSet? && r.calls[0].stackName == stackName
            && r.calls[0].changeSetName == NewChangeSetName(stackName, remote)
            && r.calls[0].templateBody == body && r.calls[0].parameters == parameters
            && r.calls[0].capabilities == [NamedIam]
    ensures |r.calls| == 2 <==> remote.create.Returned? && !remote.wait.RaisedBeforeSending?
    ensures |r.calls| == 2 ==> r.calls[1] == WaitChangeSetCreateComplete(r.calls[0].changeSetName, stackName, 10)
    ensures r.exitCode == (if remote.create.Returned? && remote.wait.Returned? then 0 else 2)
  {
    var name := NewChangeSetName(stackName, remote);
    var create := CreateChangeSet(stackName, body, parameters, name, [NamedIam]);
    if !remote.create.Returned? then Run(Sent(create, remote.create), 2)
    else Run([create] + Sent(WaitChangeSetCreateComplete(name, stackName, WaiterDelay), remote.wait),
             if remote.wait.Returned? then 0 else 2)
  }

  /** `create_stack`: request the stack, then wait for it; a failure of
      either ends the run. */
  function CreateStackRun(stackName: string, body: string, parameters: Parameters, remote: Remote): (r: Run)
    ensures |r.calls| <= 2
    ensures r.calls == [] <==> remote.create.RaisedBeforeSending?
    ensures r.calls != [] ==> r.calls[0] == CreateStack(stackName, body, parameters, [NamedIam])
    ensures |r.calls| == 2 <==> remote.create.Returned? && !remote.wait.RaisedBeforeSending?
    ensures |r.calls| == 2 ==> r.calls[1] == WaitStackCreateComplete(stackName, 10)
    ensures r.exitCode == (if remote.create.Returned? && remote.wait.Returned? then 0 else 2)
  {
    var create := CreateStack(stackName, body, parameters, [NamedIam]);
    if !remote.create.Returned? then Run(Sent(create, remote.create), 2)
    else Run([create] + Sent(WaitStackCreateComplete(stackName, WaiterDelay), remote.wait),
             if remote.wait.Returned? then 0 else 2)
  }

  /** `deploy_stack`: probe the stack, then propose a change set when it
      exists or create it when it does not. */
  function DeployStack(stackName: string, body: string, parameters: Parameters, remote: Remote): (r: Run)
    requires ValidRemote(remote)
    ensures r.calls == [] <==> remote.describe.RaisedBeforeSending?
    ensures r.calls != [] ==> r.calls[0] == DescribeStacks(stackName)
    ensures r.exitCode == 0 || r.exitCode == 2
  {
    var describe := DescribeStacks(stackName);
    match StackExists(remote.describe)
    case ProbeFailed => Run(Sent(describe, remote.describe), 2)
    case Exists(present) =>
      var r := if present then CreateChangeSetRun(stackName, body, parameters, remote)
               else CreateStackRun(stackName, body, parameters, remote);
      Run([describe] + r.calls, r.exitCode)
  }

  /** The number of change-set creation requests among `calls`. */
  function CountChangeSets(calls: seq<Call>): nat
  {
    if calls == [] then 0
    else (if calls[0].CreateChangeSet? then 1 else 0) + CountChangeSets(calls[1..])
  }

  /** The number of stack creation requests among `calls`. */
  function CountCreateStacks(calls: seq<Call>): nat
  {
    if calls == [] then 0
    else (if calls[0].CreateStack? then 1 else 0) + CountCreateStacks(calls[1..])
  }

  /** Counting distributes over concatenation. */
  lemma {:induction false} CountsAppend(a: seq<Call>, b: seq<Call>)
    ensures CountChangeSets(a + b) == CountChangeSets(a) + CountChangeSets(b)
    ensures CountCreateStacks(a + b) == CountCreateStacks(a) + CountCreateStacks(b)
  {
    if a == [] {
      assert a + b == b;
    } else {
      assert (a + b)[1..] == a[1..] + b;
      CountsAppend(a[1..], b);
    }
  }

  /** At most one path is taken: an existing stack gets one change-set
      request and no stack creation, an absent one gets one stack creation
      and no change set (in both cases unless the create step fails before
      sending), and a probe that fails gets neither. */
  lemma DeployDispatch(stackName: string, body: string, parameters: Parameters, remote: Remote)
    requires ValidRemote(remote)
    ensures var r := DeployStack(stackName, body, parameters, remote);
            var sent := !remote.create.RaisedBeforeSending?;
            && CountChangeSets(r.calls) == (if remote.describe.Returned? && sent then 1 else 0)
            && CountCreateStacks(r.calls) == (if remote.describe.RaisedClientError? && sent then 1 else 0)
  {
    var describe := DescribeStacks(stackName);
    if remote.describe.Returned? || remote.describe.RaisedClientError? {
      var run := if remote.describe.Returned? then CreateChangeSetRun(stackName, body, parameters, remote)
                 else CreateStackRun(stackName, body, parameters, remote);
      CountsAppend([describe], run.calls);
      if |run.calls| == 2 {
        assert run.calls == [run.calls[0]] + [run.calls[1]];
        CountsAppend([run.calls[0]], [run.calls[1]]);
      }
    }
  }

  /** Every mutating request acknowledges `CAPABILITY_NAMED_IAM` and no other
      capability, carries the stack name, template body and parameters, and
      every wait polls every 10 seconds. */
  lemma RequestsCarryCapabilitiesAndDelay(stackName: string, body: string, parameters: Parameters, remote: Remote)
    requires ValidRemote(remote)
    ensures var r := DeployStack(stackName, body, parameters, remote);
            forall c :: c in r.calls ==>
              && (c.Mutates() ==> c.capabilities == [NamedIam] && c.stackName == stackName
                                  && c.templateBody == body && c.parameters == parameters)
              && (c.IsWait() ==> c.delay == WaiterDelay && c.stackName == stackName)
  {
  }

  /** The wait protocol: a wait is issued only right after its own create
      request returned, it is the last request, and it waits on the very
      change set or stack that was requested; so no request follows while a
      wait is outstanding. */
  lemma WaitFollowsItsCreate(stackName: string, body: string, parameters: Parameters, remote: Remote)
    requires ValidRemote(remote)
    ensures var r := DeployStack(stackName, body, parameters, remote);
            forall i :: 0 <= i < |r.calls| && r.calls[i].IsWait() ==>
              && i == |r.calls| - 1 && i >= 1 && r.calls[i - 1].Mutates()
              && remote.create.Returned? && !remote.wait.RaisedBeforeSending?
              && (r.calls[i].WaitChangeSetCreateComplete? <==> r.calls[i - 1].CreateChangeSet?)
              && (r.calls[i].WaitChangeSetCreateComplete? ==> r.calls[i].changeSetName == r.calls[i - 1].changeSetName)
  {
  }

  /** The change set proposed for an existing stack is named after the stack:
      the stack name, a dash and six upper-case letters or digits. */
  lemma ChangeSetNamedAfterStack(stackName: string, body: string, parameters: Parameters, remote: Remote)
    requires ValidRemote(remote) && remote.describe.Returned? && !remote.create.RaisedBeforeSending?
    ensures var r := DeployStack(stackName, body, parameters, remote);
            && |r.calls| >= 2 && r.calls[1].CreateChangeSet?
            && |r.calls[1].changeSetName| == |stackName| + 7
            && r.calls[1].changeSetName[..|stackName| + 1] == stackName + "-"
            && forall i :: |stackName| + 1 <= i < |r.calls[1].changeSetName| ==>
                 IsUpperOrDigit(r.calls[1].changeSetName[i])
  {
    ChangeSetNameFormat(stackName, remote.choices);
  }

  /** The deployment succeeds exactly when the probe does not fail and both
      the create request and the wait return; every other run exits with 2. */
  lemma DeploySucceedsIff(stackName: string, body: string, parameters: Parameters, remote: Remote)
    requires ValidRemote(remote)
    ensures DeployStack(stackName, body, parameters, remote).exitCode == 0
            <==> (remote.describe.Returned? || remote.describe.RaisedClientError?)
                 && remote.create.Returned? && remote.wait.Returned?
  {
  }

}
