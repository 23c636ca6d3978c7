# Connection-status manager of the Azure IoT device client

This project models `DeviceClientConnectionStatusManager` from
`Microsoft.Azure.Devices.Client.Transport`. The device client runs several
logical transport channels (`ConnectionType`: `AmqpTelemetry`,
`AmqpMessaging`). The manager keeps one `ConnectionStatus` per channel
(`Disabled`, `Disconnected`, `Disconnected_Retrying`, `Connected`) and
derives from them one client-wide status (`State`). It also hands out a
cancellation source to a channel that starts retrying, and cancels it when
that retry has to stop.

The model is built from the class's unit tests,
`iothub/device/tests/DeviceClientConnectionStateManagerTests.cs`.
Each test method is restated as a lemma, and each rule those tests rely on is
proved for all inputs.

Layout, one module per file:

- `types.dfy` (`ConnectionTypes`): statuses, channels, `Option`, handles.
  `Disconnected_Retrying` is spelt `DisconnectedRetrying`.
- `aggregation.dfy` (`Aggregation`): the client-wide status of a list of
  channel statuses, with a priority-list reference definition.
- `manager.dfy` (`StatusManager`): the manager as an immutable value, with
  `Init` (the constructor), `ChangeTo`, `DisableAll` (`DisableAllConnections`)
  and `State`. It also holds the invariant `Valid`.
- `properties.dfy` (`ManagerProperties`): all-inputs lemmas about
  aggregation, the guard rules and handle bookkeeping.
- `scenarios.dfy` (`Scenarios`): the six test methods as lemmas. It also has
  `Replay`, which runs an arbitrary script of requests.

The manager is a record of three parts:

- a table from channel to `Entry(status, retryHandle)`;
- the number of the next handle to issue;
- the set of cancelled handles.

A `CancellationTokenSource` is a handle number. "IsCancellationRequested" is
membership of that number in the cancelled set.

Rules the model follows:

- A request is rejected iff an expected prior status is given and differs
  from the channel's current status, or the target is `DisconnectedRetrying`
  and the current status is not `Connected`. A rejected request changes
  nothing and reports `false, false, <current aggregate>` and a null source.
- An accepted request sets the channel's status and reports
  `IsConnectionStatusChanged = true`. It reports `IsClientStatusChanged`
  exactly when the aggregate moved.
- Entering `DisconnectedRetrying` issues a fresh handle and returns it.
  Leaving `DisconnectedRetrying` cancels the handle the channel held.
- The aggregate is the most severe status among channels that are not
  `Disabled`, with severity `Disconnected` > `DisconnectedRetrying` >
  `Connected`. It is `Disabled` iff every channel is `Disabled`.

Modelling choices where the tests leave the behaviour open or fix it by a
single case:

- `Disabled` is not terminal. The test at line 109 moves a `Disabled`
  channel back to `Connected` and expects the move to be accepted.
  `DisabledChannelReconnects` proves this for every manager.
- Leaving `DisconnectedRetrying` for `Connected` or `Disconnected` cancels
  the handle the channel held. The tests check cancellation on leaving
  `DisconnectedRetrying` only for the move to `Disabled` (lines 122-129).
  Cancelling on every exit is this model's choice. It is what keeps the
  invariant "the live handles are exactly the handles held by retrying
  channels".
- `DisableAll` is idempotent by construction: it clears every entry and
  cancels only handles that are held, so a second call finds nothing to
  change. The tests call `DisableAllConnections` once.

## Model

| member | source | states |
|---|---|---|
| StatusManager.Init | iothub/device/tests/DeviceClientConnectionStateManagerTests.cs:14-16 | A new manager has every channel `Disabled`, no live handle, and aggregate `Disabled` |
| StatusManager.ChangeTo | iothub/device/tests/DeviceClientConnectionStateManagerTests.cs:25-44 | The connection-changed flag is true iff the guard accepts. A rejected call leaves the manager unchanged and reports no client change and no handle. An accepted call sets only that channel's status. The client-changed flag is true iff the aggregate moved. The reported client status is the new aggregate. A handle is returned iff entering retry was accepted, and it is fresh and live. The invariant `Valid` is kept; its "live handles are held" half rests on a modelling choice (see "## Left out") |
| StatusManager.AcceptedKeepsValid | iothub/device/tests/DeviceClientConnectionStateManagerTests.cs:145-159 | After any accepted change, each channel holds a handle exactly while retrying, no two channels share one, and the live handles are exactly the held ones. The lines show that held handles are live and distinct; that live handles are held rests on cancelling on every exit from retry (see "## Left out") |
| StatusManager.DisableAll | iothub/device/tests/DeviceClientConnectionStateManagerTests.cs:156-159 | After `DisableAllConnections` every channel is `Disabled` and the aggregate is `Disabled`. Every handle that was live is now cancelled, and no handle is live |
| Aggregation.Aggregate | iothub/device/tests/DeviceClientConnectionStateManagerTests.cs:82-107 | The aggregate is `Disabled` iff every status is `Disabled`. Otherwise it is one of the statuses present and at least as severe as each of them |
| Aggregation.AggregateMatchesPriority | iothub/device/tests/DeviceClientConnectionStateManagerTests.cs:85-107 | The aggregate equals the priority rule: `Disconnected` if any channel has it, else `Disconnected_Retrying` if any, else `Connected` if any, else `Disabled` |
| Aggregation.AggregateOrderIndependent | iothub/device/tests/DeviceClientConnectionStateManagerTests.cs:85-107 | The aggregate does not depend on the order in which the channels are listed |
| StatusManager.State | iothub/device/tests/DeviceClientConnectionStateManagerTests.cs:157 | `State` in terms of channels: `Disabled` iff all are disabled (a new manager reports it at line 16, and `DisableAllConnections` at line 157). `Disconnected` iff some channel is disconnected. `Disconnected_Retrying` iff none is disconnected and some is retrying. `Connected` iff all are connected or disabled and some is connected |
| ManagerProperties.RetryingOnlyFromConnected | iothub/device/tests/DeviceClientConnectionStateManagerTests.cs:37-44 | Entering `Disconnected_Retrying` is accepted iff the channel is `Connected` and the guard matches. From any other status the call is a no-op reporting false/false and the unchanged aggregate |
| ManagerProperties.CompareAndSwapMismatchRejected | iothub/device/tests/DeviceClientConnectionStateManagerTests.cs:31-32 | If the expected prior status differs from the current one, whatever the target, the call is a no-op reporting false/false and the unchanged aggregate |
| ManagerProperties.DisabledChannelReconnects | iothub/device/tests/DeviceClientConnectionStateManagerTests.cs:106-110 | A `Disabled` channel may be moved to `Connected`. The call is accepted, and the client becomes `Connected` iff every other channel is `Connected` or `Disabled` |
| ManagerProperties.DistinctRetryHandles | iothub/device/tests/DeviceClientConnectionStateManagerTests.cs:145-155 | Two channels retrying at once hold two distinct handles, both live |
| ManagerProperties.DisablingRetryingChannelCancelsHandle | iothub/device/tests/DeviceClientConnectionStateManagerTests.cs:122-129 | Moving a retrying channel to `Disabled` is accepted and cancels the handle it held |
| ManagerProperties.DisableAllIdempotent | iothub/device/tests/DeviceClientConnectionStateManagerTests.cs:156-157 | Calling `DisableAllConnections` a second time changes nothing. The test calls it once; idempotence is a property of the model's `DisableAll` |
| ManagerProperties.DisableAllIsDisablingEachChannel | iothub/device/tests/DeviceClientConnectionStateManagerTests.cs:156-159 | `DisableAllConnections` has the same effect as moving every channel to `Disabled` with `ChangeTo`, one after the other |
| Scenarios.Replay | iothub/device/tests/DeviceClientConnectionStateManagerTests.cs:145-155 | Along any script of calls the invariant holds and no cancellation is undone. Every handle handed out was issued during the script. Handles handed out later are strictly greater, so no two are the same |
| Scenarios.NoConnection | iothub/device/tests/DeviceClientConnectionStateManagerTests.cs:11-17 | `TestNoConnection`: a new manager reports `Disabled` |
| Scenarios.SingleConnectionStatusTransitions | iothub/device/tests/DeviceClientConnectionStateManagerTests.cs:19-45 | `TestSingleConnectionStatusTransitions`: each of the seven results has the asserted flags, client status and non-null source |
| Scenarios.SingleConnectionTokenCancelledWhenDisable | iothub/device/tests/DeviceClientConnectionStateManagerTests.cs:47-63 | `TestSingleConnectionTokenCancelledWhenDisable`: the asserted results hold, and the source issued on retry is cancelled after the move to `Disabled` |
| Scenarios.MultipleConnectionStatusTransitions | iothub/device/tests/DeviceClientConnectionStateManagerTests.cs:76-111 | `TestMultipleConnectionStatusTransitions`: each of the ten results has the asserted flags and client status |
| Scenarios.CancelRetryingTaskWhenTransitToDisabled | iothub/device/tests/DeviceClientConnectionStateManagerTests.cs:113-130 | `TestCancelRetryingTaskWhenTransitToDisabled`: the source is not cancelled while retrying and is cancelled after the move to `Disabled` |
| Scenarios.CancelRetryingTaskWhenDisableMultipleConnections | iothub/device/tests/DeviceClientConnectionStateManagerTests.cs:132-160 | `TestCancelRetryingTaskWhenDisableMultipleConnections`: the two sources are live before `DisableAllConnections`. Afterwards both are cancelled and `State` is `Disabled` |

## Left out

- The class's own implementation: the model is built from the class's unit
  tests, and every rule above comes from them or is a modelling choice
  listed above.
- Locking and thread-safety: the manager serialises calls behind a lock. The
  model treats each call as one atomic step of a sequential run.
- `CancellationTokenSource` objects: a source is a handle number plus
  membership in the cancelled set. Tokens, callbacks and their propagation
  are not modelled.
- StatusManager.ChangeTo: same-status requests such as `Connected` to
  `Connected` are accepted and reported with `IsConnectionStatusChanged =
  true` (except retrying to retrying, which the guard refuses). This is the
  model's choice: the tests never make such a request.
- StatusManager.AcceptedKeepsValid: the half of the invariant saying every
  live handle is held by a retrying channel rests on the modelling choice to
  cancel on every exit from `DisconnectedRetrying`. Lines 145-159 of the
  tests show only that held handles are live and distinct.
- Channel identifiers outside the fixed set: they cannot be written,
  because `Channel` is a closed two-value datatype.
- Transport, AMQP I/O, retry policy and backoff, logging and the public
  `DeviceClient` API: these are outside the manager.
