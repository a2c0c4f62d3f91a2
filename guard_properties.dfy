/** What `stopBilling` returns on each path, and the examples its behaviour is known by. */
module GuardProperties {
  import opened Wrappers
  import Decimal
  import opened BillingGuard

  /** Without event data the guard answers a fixed message and calls nothing. */
  lemma NoDataResult(projectId: string, remote: Remote)
    ensures StopBilling(Event(None), projectId, remote) == Run(Returned("No data provided in event."), [])
  {
  }

  /** Within budget the guard reports the current cost and calls nothing; the number
      between the prefix and the closing parenthesis reads back as that cost. */
  lemma NoActionResult(cost: int, budget: int, projectId: string, remote: Remote)
    requires cost <= budget
    ensures var r := StopBilling(Event(Some(Payload(Some(cost), Some(budget)))), projectId, remote);
      r.trace == [] && r.outcome.Returned?
      && var text := r.outcome.text;
      |text| > |NO_ACTION_PREFIX| && text[..|NO_ACTION_PREFIX|] == "No action necessary. (Current cost: "
      && text[|text| - 1] == ')'
      && Decimal.IsCanonicalInt(text[|NO_ACTION_PREFIX|..|text| - 1])
      && Decimal.ParseInt(text[|NO_ACTION_PREFIX|..|text| - 1]) == cost
  {
    var digits := Decimal.IntToString(cost);
    var text := NO_ACTION_PREFIX + digits + ")";
    assert text[|NO_ACTION_PREFIX|..|text| - 1] == digits;
    Decimal.IntRoundTrip(cost);
  }

  /** Over budget with no project configured: a fixed message and no call. */
  lemma NoProjectResult(p: Payload, remote: Remote)
    requires !WithinBudget(p)
    ensures StopBilling(Event(Some(p)), "", remote) == Run(Returned("No project specified"), [])
  {
  }

  /** The project check comes after the budget check: within budget, a missing project
      still yields the "No action necessary." report. */
  lemma BudgetCheckedFirst(p: Payload, remote: Remote)
    requires WithinBudget(p)
    ensures var r := StopBilling(Event(Some(p)), "", remote);
      r.trace == [] && r.outcome.Returned? && |r.outcome.text| >= |NO_ACTION_PREFIX|
      && r.outcome.text[..|NO_ACTION_PREFIX|] == NO_ACTION_PREFIX
  {
  }

  /** A read that throws counts as "enabled": the disable write is still issued. */
  lemma FailOpen(event: Event, projectId: string, update: Option<string>)
    requires ReachesRemote(event, projectId)
    ensures var r := StopBilling(event, projectId, Remote(true, None, update));
      r.trace == Protocol(ProjectName(projectId)) && Wrote(r.trace)
  {
  }

  /** The read reports billing disabled: a fixed message, and the trace stops at the read. */
  lemma AlreadyDisabledResult(event: Event, projectId: string, update: Option<string>)
    requires ReachesRemote(event, projectId)
    ensures StopBilling(event, projectId, Remote(true, Some(false), update))
      == Run(Returned("Billing already disabled"), [Auth, Read("projects/" + projectId)])
  {
  }

  /** The disable path: Auth, Read, Write on "projects/<id>" with an empty billing account,
      and the result embeds the update's response body after "Billing disabled: ". */
  lemma DisabledResult(event: Event, projectId: string, billingInfo: Option<bool>, body: string)
    requires ReachesRemote(event, projectId) && billingInfo != Some(false)
    ensures StopBilling(event, projectId, Remote(true, billingInfo, Some(body)))
      == Run(Returned("Billing disabled: " + body),
             [Auth, Read("projects/" + projectId), Write("projects/" + projectId, "")])
  {
  }

  /** Any trace that follows the protocol holds at most one read and at most one write,
      and the read comes before the write. */
  lemma ProtocolOrder(t: seq<Call>, name: string)
    requires IsPrefix(t, Protocol(name))
    ensures forall i, j :: 0 <= i < |t| && 0 <= j < |t| && t[i].Read? && t[j].Read? ==> i == j
    ensures forall i, j :: 0 <= i < |t| && 0 <= j < |t| && t[i].Write? && t[j].Write? ==> i == j
    ensures forall i, j :: 0 <= i < |t| && 0 <= j < |t| && t[i].Read? && t[j].Write? ==> i < j
    ensures forall i :: 0 <= i < |t| && t[i].Write? ==> exists j :: 0 <= j < i && t[j].Read?
  {
    forall i | 0 <= i < |t| && t[i].Write?
      ensures exists j :: 0 <= j < i && t[j].Read?
    {
      assert t[1] == Read(name);
    }
  }

  /** The trace of every invocation holds at most one read and at most one write, the read
      before the write, and no write without a read. */
  lemma StopBillingOrder(event: Event, projectId: string, remote: Remote)
    ensures var t := StopBilling(event, projectId, remote).trace;
      (forall i, j :: 0 <= i < |t| && 0 <= j < |t| && t[i].Read? && t[j].Read? ==> i == j)
      && (forall i, j :: 0 <= i < |t| && 0 <= j < |t| && t[i].Write? && t[j].Write? ==> i == j)
      && (forall i, j :: 0 <= i < |t| && 0 <= j < |t| && t[i].Read? && t[j].Write? ==> i < j)
      && (forall i :: 0 <= i < |t| && t[i].Write? ==> exists j :: 0 <= j < i && t[j].Read?)
  {
    ProtocolOrder(StopBilling(event, projectId, remote).trace, ProjectName(projectId));
  }

  /** 150 spent against a budget of 100, billing live: one read, one write, and a
      "Billing disabled:" report. */
  lemma OverBudgetExample(body: string)
    ensures var r := StopBilling(Event(Some(Payload(Some(150), Some(100)))), PROJECT_ID,
                                 Remote(true, Some(true), Some(body)));
      r.trace == [Auth, Read("projects/macgyver-services-production"),
                  Write("projects/macgyver-services-production", "")]
      && r.outcome == Returned("Billing disabled: " + body)
  {
    var event := Event(Some(Payload(Some(150), Some(100))));
    var name := ProjectName(PROJECT_ID);
    assert name == "projects/macgyver-services-production";
    DisabledResult(event, PROJECT_ID, Some(true), body);
  }

  /** 50 spent against a budget of 100: exactly "No action necessary. (Current cost: 50)". */
  lemma UnderBudgetExample(projectId: string, remote: Remote)
    ensures StopBilling(Event(Some(Payload(Some(50), Some(100)))), projectId, remote)
      == Run(Returned("No action necessary. (Current cost: 50)"), [])
  {
  }

  /** A payload without `costAmount` fails the `<=` test (undefined compares false), so
      the guard goes on to disable billing. */
  lemma MissingCostStillDisables(budget: int, body: string)
    ensures var r := StopBilling(Event(Some(Payload(None, Some(budget)))), PROJECT_ID,
                                 Remote(true, Some(true), Some(body)));
      Wrote(r.trace) && r.outcome == Returned("Billing disabled: " + body)
  {
  }
}
