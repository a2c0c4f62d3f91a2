# Billing killswitch guard, modelled in Dafny

The repository is a cloud function, `stopBilling` in `index.js`. It runs when a budget
alert arrives. It compares the reported spend (`costAmount`) with the budget
(`budgetAmount`). When spend is over budget, it detaches the billing account of one
configured project, which disables billing for that project. The decision is a short chain
of early returns:

1. no event data: "No data provided in event.";
2. `costAmount <= budgetAmount`: "No action necessary. (Current cost: <cost>)";
3. no project configured: "No project specified";
4. otherwise obtain a credential, then read the project's billing state with
   `_isBillingEnabled`. A failed read counts as "enabled";
5. if enabled, issue the `_disableBillingForProject` update with an empty billing account
   and answer "Billing disabled: <response>". Otherwise answer "Billing already disabled".

The model is made of pure functions. The remote collaborators are replaced by their
answers, given as the input `Remote`:
- whether the credential is obtained;
- the read's `billingEnabled`, or `None` when the read throws;
- the update's serialized response body, or `None` when the update throws.

`BillingGuard.StopBilling` returns the settled promise (`Returned(text)` or `Rejected`)
together with the trace of remote calls it made: `Auth`, `Read(name)`,
`Write(name, billingAccountName)`.

Files:
- `wrappers.dfy`: the `Option` datatype.
- `decimal.dfy`: how the template literal renders the integer cost, plus a parser that
  reads the rendering back.
- `billing_guard.dfy`: the guard itself.
- `guard_properties.dfy`: the result on each path, and worked examples.
- `invocations.dfy`: repeated invocations against a provider whose reads report its true
  state, while the credential and the update may fail on any invocation.

A payload field that is absent is `None`. JavaScript then compares `undefined`, and
`undefined <= x` is false. So an alert without `costAmount` or `budgetAmount` does not
take the "No action necessary." exit: a missing field is treated as over budget, and the
guard goes on to disable billing. The model keeps this behaviour of `index.js:24` as
written, and `GuardProperties.MissingCostStillDisables` exhibits it. The code also issues the write when the read fails
(`index.js:77-82`), so billing can be detached without a confirmed "enabled" state. The
model follows the code there too (`GuardProperties.FailOpen`).

## Model

| member | source | states |
|---|---|---|
| BillingGuard.StopBilling | index.js:8-45 | the trace is always a prefix of Auth, Read("projects/"+id), Write("projects/"+id, ""), so there is at most one read and one write, and the read comes first; the trace is empty exactly on the three early exits; a read is made exactly when past the exits with a credential; a write is made exactly when the budget test fails, a project is set, the credential is obtained and the read did not report false; only the credential or the write can reject |
| BillingGuard.IsBillingEnabled | index.js:70-83 | makes exactly one Read of the given project name; reports "disabled" exactly when the read succeeded and said false; a throwing read counts as enabled |
| BillingGuard.DisableBillingForProject | index.js:90-100 | one Write to the given name with an empty billingAccountName; rejects exactly when the update throws; otherwise the text is "Billing disabled: " followed by the response body |
| BillingGuard.ProjectName | index.js:4-5 | the resource name is "projects/" followed by the project id |
| Decimal.NatToString | index.js:26 | renders a natural number as a canonical digit string: at least one digit, no leading zero except for 0 |
| Decimal.IntToString | index.js:26 | renders an integer as a canonical decimal with a leading '-' exactly for negatives |
| Decimal.NatRoundTrip | index.js:26 | reading back the digits of n gives n |
| Decimal.IntRoundTrip | index.js:26 | reading back the rendering of any integer gives that integer |
| Decimal.IntToStringInjective | index.js:26 | different costs render differently |
| GuardProperties.NoDataResult | index.js:11-14 | without data: exactly "No data provided in event." and an empty trace |
| GuardProperties.NoActionResult | index.js:24-27 | cost <= budget: empty trace, text starts with "No action necessary. (Current cost: " and ends with ")", and what lies between reads back as the cost |
| GuardProperties.NoProjectResult | index.js:29-32 | over budget with an empty project id: exactly "No project specified" and an empty trace |
| GuardProperties.BudgetCheckedFirst | index.js:24-32 | within budget, an empty project id still yields the "No action necessary." report with no call |
| GuardProperties.FailOpen | index.js:71-82 | a read that throws still leads to the full Auth, Read, Write trace |
| GuardProperties.AlreadyDisabledResult | index.js:37-44 | read reports false: exactly "Billing already disabled", trace Auth then Read, no write |
| GuardProperties.DisabledResult | index.js:37-40 | read did not report false and the update succeeds: "Billing disabled: " + body after Auth, Read, Write("projects/"+id, "") |
| GuardProperties.ProtocolOrder | index.js:35-40 | in any protocol-conforming trace: at most one read, at most one write, the read before the write, and every write preceded by a read |
| GuardProperties.StopBillingOrder | index.js:35-44 | in the trace of every invocation: at most one read, at most one write, the read before the write, and no write without a read before it |
| GuardProperties.OverBudgetExample | index.js:4-45 | 150 against 100 with billing live on the configured project: one read and one write on "projects/macgyver-services-production", and a "Billing disabled: " report |
| GuardProperties.UnderBudgetExample | index.js:24-27 | 50 against 100: exactly "No action necessary. (Current cost: 50)" with no call |
| GuardProperties.MissingCostStillDisables | index.js:24 | a payload without costAmount fails the `<=` test and billing gets disabled |
| Invocations.After | index.js:91-96 | billing is never re-enabled; a completed write detaches it; an invocation without a write leaves it as it was |
| Invocations.NoWriteWhenDisabled | index.js:37-44 | against a provider reporting billing disabled, no write is issued, and past the early exits with a credential the answer is "Billing already disabled" |
| Invocations.NoWritesOnceDisabled | index.js:37-44 | once billing is disabled, no later notification issues a write, whatever the credential and update answers |
| Invocations.AtMostOneDisable | index.js:37-44 | over any sequence of notifications, with any credential and update answers per notification and reads that report the true state, billing is disabled at most once, and never if it started disabled |

## Left out

- Decoding of the event data (`index.js:16-18`): base64 and `JSON.parse` are library calls. The event carries the decoded payload, and `Event(None)` stands for a `data` property that is missing, null or empty. Malformed JSON, which makes `JSON.parse` throw, is not modelled.
- Field values other than an integer or an absent field (null, strings, fractional numbers, NaN): JavaScript's loose number comparison is not modelled for them.
- Decimal.IntToString: the model renders every integer exactly, in plain decimal. JavaScript agrees only up to magnitude 2^53. Above that, the parsed amount is rounded to the nearest double and printed as its shortest round-tripping digits padded with zeros (2^60 prints as "1152921504606847000"). From 1e21 on, it uses exponent notation, and it writes fractional amounts with a decimal point.
- `JSON.stringify(res.data)` (`index.js:99`): the response body is an opaque string.
- Credential plumbing (`index.js:51-63`): the `GoogleAuth` client, its scopes and the process-wide `google.options` mutation are reduced to one `Auth` trace entry and the `authOk` answer.
- The cloudbilling HTTP calls (`index.js:72`, `index.js:91`): network I/O, represented only by their answers and trace entries.
- A `billingEnabled` flag that is absent or not a boolean in the read's response: an absent flag is falsy, so it is covered by `Some(false)`; other truthy or falsy values are not modelled.
- Logging with `console.log` and `console.error`: it has no effect on the result.
- Asynchronous suspension and concurrent invocations: these belong to the host runtime.
- Invocations.AtMostOneDisable: it holds only for a provider whose reads report the true state. With failing reads, the fail-open policy may issue the write again, and no bound is claimed there. A rejected update leaves billing enabled, so a later notification writes again; the lemma bounds completed disables, not write attempts.
