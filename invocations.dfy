/** Repeated invocations of the guard against a billing provider whose reads report its true
    state: a completed update detaches the billing account, and later reads see it detached.
    The credential and the update may fail differently on each invocation. */
module Invocations {
  import opened Wrappers
  import opened BillingGuard

  /** What the collaborators answer to one invocation, apart from the read. */
  datatype Answers = Answers(authOk: bool, update: Option<string>)

  /** The collaborators' answers when billing is currently `enabled`: the read reports
      that state, the credential and the update answer as `a` says. */
  function Provider(enabled: bool, a: Answers): Remote {
    Remote(a.authOk, Some(enabled), a.update)
  }

  /** An invocation that issued the write and saw it complete. */
  predicate Disabled(r: Run) {
    Wrote(r.trace) && r.outcome.Returned?
  }

  /** The provider's billing state after one invocation: a completed write detaches the
      billing account; nothing else changes it. */
  function After(enabled: bool, r: Run): (enabledAfter: bool)
    ensures enabledAfter ==> enabled
    ensures enabled && Wrote(r.trace) && r.outcome.Returned? ==> !enabledAfter
    ensures enabled && !Wrote(r.trace) ==> enabledAfter
  {
    enabled && !Disabled(r)
  }

  /** The number of invocations, among `events` handled in order with `answers[i]` the
      answers to `events[i]`, that issue the disable write (completed or not). */
  function Writes(events: seq<Event>, answers: seq<Answers>, projectId: string, enabled: bool): nat
    requires |answers| == |events|
    decreases |events|
  {
    if events == [] then 0
    else
      var r := StopBilling(events[0], projectId, Provider(enabled, answers[0]));
      (if Wrote(r.trace) then 1 else 0)
        + Writes(events[1..], answers[1..], projectId, After(enabled, r))
  }

  /** The number of those invocations whose disable write completed. */
  function Disables(events: seq<Event>, answers: seq<Answers>, projectId: string, enabled: bool): nat
    requires |answers| == |events|
    decreases |events|
  {
    if events == [] then 0
    else
      var r := StopBilling(events[0], projectId, Provider(enabled, answers[0]));
      (if Disabled(r) then 1 else 0)
        + Disables(events[1..], answers[1..], projectId, After(enabled, r))
  }

  /** Once billing is disabled, another invocation answers "Billing already disabled",
      exits early or fails to obtain the credential, and never writes again. */
  lemma NoWriteWhenDisabled(event: Event, projectId: string, a: Answers)
    ensures var r := StopBilling(event, projectId, Provider(false, a));
      !Wrote(r.trace)
      && (ReachesRemote(event, projectId) && a.authOk ==> r.outcome == Returned("Billing already disabled"))
  {
  }

  /** After billing is disabled, no later notification issues a write, whatever the
      credential and update answers. */
  lemma {:induction false} NoWritesOnceDisabled(events: seq<Event>, answers: seq<Answers>, projectId: string)
    requires |answers| == |events|
    ensures Writes(events, answers, projectId, false) == 0
    decreases |events|
  {
    if events != [] {
      NoWriteWhenDisabled(events[0], projectId, answers[0]);
      NoWritesOnceDisabled(events[1..], answers[1..], projectId);
    }
  }

  /** However many notifications arrive, billing is disabled at most once, and never when
      it was already disabled; a rejected update leaves it enabled for a later attempt. */
  lemma {:induction false} AtMostOneDisable(events: seq<Event>, answers: seq<Answers>, projectId: string, enabled: bool)
    requires |answers| == |events|
    ensures Disables(events, answers, projectId, enabled) <= if enabled then 1 else 0
    decreases |events|
  {
    if events != [] {
      var r := StopBilling(events[0], projectId, Provider(enabled, answers[0]));
      var rest, later := events[1..], answers[1..];
      if !enabled {
        NoWriteWhenDisabled(events[0], projectId, answers[0]);
        AtMostOneDisable(rest, later, projectId, false);
      } else if Disabled(r) {
        AtMostOneDisable(rest, later, projectId, false);
      } else {
        AtMostOneDisable(rest, later, projectId, enabled);
      }
    }
  }
}
