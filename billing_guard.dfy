/** The billing guard of index.js: on a budget notification, compare spend with the budget
    and, when over budget, detach the configured project's billing account.

    Every remote collaborator (the credential provider, the billing provider's read and
    update calls) is replaced by its answer, given as input in `Remote`; what the guard
    asks of them is recorded, in order, in the returned trace of `Call`s. */
module BillingGuard {
  import opened Wrappers
  import Decimal

  /** The deploy-time project identifier. */
  const PROJECT_ID: string := "macgyver-services-production"

  /** The resource name the billing API is addressed with. */
  function ProjectName(projectId: string): (name: string)
    ensures |name| == |projectId| + 9 && name[..9] == "projects/" && name[9..] == projectId
  {
    "projects/" + projectId
  }

  const PROJECT_NAME: string := ProjectName(PROJECT_ID)

  const NO_DATA_MESSAGE: string := "No data provided in event."
  const NO_PROJECT_MESSAGE: string := "No project specified"
  const ALREADY_DISABLED_MESSAGE: string := "Billing already disabled"
  const NO_ACTION_PREFIX: string := "No action necessary. (Current cost: "
  const DISABLED_PREFIX: string := "Billing disabled: "

  /** The decoded notification body. A field is `None` when the JSON object lacks it
      (JavaScript reads it as `undefined`). */
  datatype Payload = Payload(costAmount: Option<int>, budgetAmount: Option<int>)

  /** The pub/sub event; `data == None` when its `data` property is missing or empty. */
  datatype Event = Event(data: Option<Payload>)

  /** What the remote collaborators answer during one invocation.
      authOk: whether obtaining the credential succeeds;
      billingInfo: `Some(b)` when getBillingInfo answers with `billingEnabled == b`
        (an absent flag reads as false), `None` when the call throws;
      update: `Some(body)` with the serialized response body when updateBillingInfo
        succeeds, `None` when it throws. */
  datatype Remote = Remote(authOk: bool, billingInfo: Option<bool>, update: Option<string>)

  /** One remote call issued by the guard. */
  datatype Call =
    | Auth
    | Read(name: string)
    | Write(name: string, billingAccountName: string)

  /** How the invocation's promise settles: with a status string, or rejected by an
      exception that the guard does not catch. */
  datatype Outcome = Returned(text: string) | Rejected

  datatype Run = Run(outcome: Outcome, trace: seq<Call>)

  /** The full sequence of calls the guard can make for project `name`; every trace is a
      prefix of it. */
  function Protocol(name: string): seq<Call> {
    [Auth, Read(name), Write(name, "")]
  }

  predicate IsPrefix<T(==)>(t: seq<T>, u: seq<T>) {
    |t| <= |u| && t == u[..|t|]
  }

  predicate Wrote(trace: seq<Call>) {
    exists c :: c in trace && c.Write?
  }

  predicate HasRead(trace: seq<Call>) {
    exists c :: c in trace && c.Read?
  }

  /** The budget test `costAmount <= budgetAmount` with JavaScript's comparison: a missing
      operand is `undefined`, converts to NaN, and makes the comparison false. */
  predicate WithinBudget(p: Payload) {
    p.costAmount.Some? && p.budgetAmount.Some? && p.costAmount.value <= p.budgetAmount.value
  }

  /** The invocations that get past all three early exits and reach the remote calls. */
  predicate ReachesRemote(event: Event, projectId: string) {
    event.data.Some? && !WithinBudget(event.data.value) && projectId != ""
  }

  /** The answer of `_isBillingEnabled` and the calls it made. */
  datatype Check = Check(enabled: bool, trace: seq<Call>)

  /** `_isBillingEnabled`: one read of project `name`; a failed read counts as "enabled"
      (fail-open toward disabling). */
  function IsBillingEnabled(name: string, billingInfo: Option<bool>): (r: Check)
    ensures r.trace == [Read(name)]
    ensures !r.enabled <==> billingInfo == Some(false)
  {
    match billingInfo
    case None => Check(true, [Read(name)])
    case Some(b) => Check(b, [Read(name)])
  }

  /** `_disableBillingForProject`: one update that sets an empty billing account. */
  function DisableBillingForProject(name: string, update: Option<string>): (r: Run)
    ensures r.trace == [Write(name, "")]
    ensures r.outcome.Rejected? <==> update.None?
    ensures r.outcome.Returned? ==>
      |r.outcome.text| >= |DISABLED_PREFIX| && r.outcome.text[..|DISABLED_PREFIX|] == DISABLED_PREFIX
      && r.outcome.text[|DISABLED_PREFIX|..] == update.value
  {
    match update
    case None => Run(Rejected, [Write(name, "")])
    case Some(body) => Run(Returned(DISABLED_PREFIX + body), [Write(name, "")])
  }

  /** `stopBilling`. */
  function StopBilling(event: Event, projectId: string, remote: Remote): (r: Run)
    // every trace is Auth, then Read, then Write, cut short: at most one read, at most
    // one write, the read before the write, both addressed to the configured project,
    // and the write carries an empty billing account
    ensures IsPrefix(r.trace, Protocol(ProjectName(projectId)))
    // the early exits make no remote call at all
    ensures r.trace == [] <==> !ReachesRemote(event, projectId)
    // a read is made exactly when the credential was obtained
    ensures HasRead(r.trace) <==> ReachesRemote(event, projectId) && remote.authOk
    // the write happens exactly when over budget, a project is configured, the credential
    // was obtained and the read did not report billing disabled
    ensures Wrote(r.trace) <==>
      ReachesRemote(event, projectId) && remote.authOk && remote.billingInfo != Some(false)
    // only the credential and the write can reject the invocation
    ensures r.outcome.Rejected? <==>
      ReachesRemote(event, projectId) && (!remote.authOk || (remote.billingInfo != Some(false) && remote.update.None?))
  {
    if event.data.None? then
      Run(Returned(NO_DATA_MESSAGE), [])
    else
      var p := event.data.value;
      if WithinBudget(p) then
        Run(Returned(NO_ACTION_PREFIX + Decimal.IntToString(p.costAmount.value) + ")"), [])
      else if projectId == "" then
        Run(Returned(NO_PROJECT_MESSAGE), [])
      else if !remote.authOk then
        Run(Rejected, [Auth])
      else
        var name := ProjectName(projectId);
        var check := IsBillingEnabled(name, remote.billingInfo);
        if check.enabled then
          var w := DisableBillingForProject(name, remote.update);
          var trace := [Auth] + check.trace + w.trace;
          assert trace[1] in trace && trace[2] in trace;
          Run(w.outcome, trace)
        else
          var trace := [Auth] + check.trace;
          assert trace[1] in trace;
          Run(Returned(ALREADY_DISABLED_MESSAGE), trace)
  }
}
