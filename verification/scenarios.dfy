/** The unit tests of the connection-status manager, each restated as a lemma
    about the same chain of calls, and the replay of an arbitrary script. */
module Scenarios {
  import opened ConnectionTypes
  import opened Aggregation
  import opened StatusManager

  /** One `ChangeTo(channel, target[, expectedPrior])` call. */
  datatype Request = Request(channel: Channel, target: Status, expectedPrior: Option<Status>)

  /** The manager after a script, and what each call reported, in order. */
  datatype Run = Run(manager: Manager, results: seq<ChangeResult>)

  /** Applies the requests in order. Along any script the invariant holds,
      cancellations are never undone, and every handle handed out is fresh:
      issued during this run and distinct from every other one it handed out. */
  function Replay(m: Manager, reqs: seq<Request>): (run: Run)
    requires Valid(m)
    ensures Valid(run.manager)
    ensures |run.results| == |reqs|
    ensures m.cancelled <= run.manager.cancelled
    ensures m.nextHandle <= run.manager.nextHandle
    ensures forall i :: 0 <= i < |reqs| && run.results[i].cancellationHandle.Some? ==>
              && reqs[i].target == DisconnectedRetrying
              && m.nextHandle <= run.results[i].cancellationHandle.value < run.manager.nextHandle
    ensures forall i, j :: 0 <= i < j < |reqs|
              && run.results[i].cancellationHandle.Some? && run.results[j].cancellationHandle.Some?
              ==> run.results[i].cancellationHandle.value < run.results[j].cancellationHandle.value
    decreases |reqs|
  {
    if reqs == [] then Run(m, [])
    else
      var s := ChangeTo(m, reqs[0].channel, reqs[0].target, reqs[0].expectedPrior);
      var rest := Replay(s.manager, reqs[1..]);
      Run(rest.manager, [s.result] + rest.results)
  }

  /** The arguments of the tests' `AssertConnectionStatusChangeResult`. */
  datatype Expectation = Expect(
    isConnectionStatusChanged: bool,
    isClientStatusChanged: bool,
    clientStatus: Status,
    assertCancellationToken: bool)

  /** What `AssertConnectionStatusChangeResult` checks of one result: the two
      flags and the client status, and a non-null handle when asked to. */
  predicate Meets(r: ChangeResult, e: Expectation)
  {
    && r.isConnectionStatusChanged == e.isConnectionStatusChanged
    && r.isClientStatusChanged == e.isClientStatusChanged
    && r.clientStatus == e.clientStatus
    && (e.assertCancellationToken ==> r.cancellationHandle.Some?)
  }

  /** With the two channels of the tests, the client status is the worse of the two. */
  lemma StateOfTwo(m: Manager)
    requires Total(m)
    ensures State(m) == Worse(m.table[AmqpTelemetry].status, m.table[AmqpMessaging].status)
  {
    var ss := Statuses(m);
    assert ss == [m.table[AmqpTelemetry].status, m.table[AmqpMessaging].status];
    assert ss[..1][..0] == [];
    assert Aggregate(ss[..1]) == ss[0] by {
      assert Aggregate(ss[..1]) == Worse(Aggregate([]), ss[0]);
    }
    assert Aggregate(ss) == Worse(Aggregate(ss[..1]), ss[1]);
  }

  /** `TestNoConnection`. */
  lemma NoConnection()
    ensures State(Init()) == Disabled
    ensures forall c: Channel :: Init().table[c].status == Disabled
  {
  }

  /** The last four calls of `TestSingleConnectionStatusTransitions`, from
      the statuses the first three leave behind. */
  lemma SingleConnectionLastFour(m: Manager)
    requires Valid(m)
    requires m.table[AmqpTelemetry].status == DisconnectedRetrying
    requires m.table[AmqpMessaging].status == Disabled
    ensures
      var s4 := ChangeTo(m, AmqpTelemetry, Disconnected, None);
      var s5 := ChangeTo(s4.manager, AmqpTelemetry, DisconnectedRetrying, None);
      var s6 := ChangeTo(s5.manager, AmqpTelemetry, Disabled, None);
      var s7 := ChangeTo(s6.manager, AmqpTelemetry, DisconnectedRetrying, None);
      && Meets(s4.result, Expect(true, true, Disconnected, false))
      && Meets(s5.result, Expect(false, false, Disconnected, false))
      && Meets(s6.result, Expect(true, true, Disabled, false))
      && Meets(s7.result, Expect(false, false, Disabled, false))
  {
    StateOfTwo(m);
    var s4 := ChangeTo(m, AmqpTelemetry, Disconnected, None);
    StateOfTwo(s4.manager);
    assert s4.manager.table[AmqpTelemetry].status == Disconnected && s4.manager.table[AmqpMessaging].status == Disabled;
    var s5 := ChangeTo(s4.manager, AmqpTelemetry, DisconnectedRetrying, None);
    assert s5.manager == s4.manager;
    var s6 := ChangeTo(s5.manager, AmqpTelemetry, Disabled, None);
    StateOfTwo(s6.manager);
    assert s6.manager.table[AmqpTelemetry].status == Disabled && s6.manager.table[AmqpMessaging].status == Disabled;
    var s7 := ChangeTo(s6.manager, AmqpTelemetry, DisconnectedRetrying, None);
  }

  /** `TestSingleConnectionStatusTransitions`. */
  lemma SingleConnectionStatusTransitions()
    ensures
      var s1 := ChangeTo(Init(), AmqpTelemetry, Connected, None);
      var s2 := ChangeTo(s1.manager, AmqpTelemetry, DisconnectedRetrying, None);
      var s3 := ChangeTo(s2.manager, AmqpTelemetry, Disconnected, Some(Connected));
      var s4 := ChangeTo(s3.manager, AmqpTelemetry, Disconnected, None);
      var s5 := ChangeTo(s4.manager, AmqpTelemetry, DisconnectedRetrying, None);
      var s6 := ChangeTo(s5.manager, AmqpTelemetry, Disabled, None);
      var s7 := ChangeTo(s6.manager, AmqpTelemetry, DisconnectedRetrying, None);
      && Meets(s1.result, Expect(true, true, Connected, false))
      && Meets(s2.result, Expect(true, true, DisconnectedRetrying, true))
      && Meets(s3.result, Expect(false, false, DisconnectedRetrying, false))
      && Meets(s4.result, Expect(true, true, Disconnected, false))
      && Meets(s5.result, Expect(false, false, Disconnected, false))
      && Meets(s6.result, Expect(true, true, Disabled, false))
      && Meets(s7.result, Expect(false, false, Disabled, false))
  {
    var m0 := Init();
    StateOfTwo(m0);
    var s1 := ChangeTo(m0, AmqpTelemetry, Connected, None);
    StateOfTwo(s1.manager);
    assert s1.manager.table[AmqpTelemetry].status == Connected && s1.manager.table[AmqpMessaging].status == Disabled;
    var s2 := ChangeTo(s1.manager, AmqpTelemetry, DisconnectedRetrying, None);
    StateOfTwo(s2.manager);
    assert s2.manager.table[AmqpTelemetry].status == DisconnectedRetrying && s2.manager.table[AmqpMessaging].status == Disabled;
    var s3 := ChangeTo(s2.manager, AmqpTelemetry, Disconnected, Some(Connected));
    assert s3.manager == s2.manager;
    SingleConnectionLastFour(s3.manager);
  }

  /** `TestSingleConnectionTokenCancelledWhenDisable`. */
  lemma SingleConnectionTokenCancelledWhenDisable()
    ensures
      var s1 := ChangeTo(Init(), AmqpTelemetry, Connected, None);
      var s2 := ChangeTo(s1.manager, AmqpTelemetry, DisconnectedRetrying, None);
      var token := s2.result.cancellationHandle;
      var s3 := ChangeTo(s2.manager, AmqpTelemetry, Disabled, None);
      && Meets(s1.result, Expect(true, true, Connected, false))
      && Meets(s2.result, Expect(true, true, DisconnectedRetrying, true))
      && Meets(s3.result, Expect(true, true, Disabled, false))
      && token.Some? && token.value in s3.manager.cancelled
  {
    var m0 := Init();
    StateOfTwo(m0);
    var s1 := ChangeTo(m0, AmqpTelemetry, Connected, None);
    StateOfTwo(s1.manager);
    var s2 := ChangeTo(s1.manager, AmqpTelemetry, DisconnectedRetrying, None);
    StateOfTwo(s2.manager);
    var s3 := ChangeTo(s2.manager, AmqpTelemetry, Disabled, None);
    StateOfTwo(s3.manager);
  }

  /** The first five calls of `TestMultipleConnectionStatusTransitions`. */
  lemma MultipleConnectionsFirstHalf()
    ensures
      var s1 := ChangeTo(Init(), AmqpTelemetry, Connected, None);
      var s2 := ChangeTo(s1.manager, AmqpMessaging, Connected, None);
      var s3 := ChangeTo(s2.manager, AmqpMessaging, DisconnectedRetrying, None);
      var s4 := ChangeTo(s3.manager, AmqpTelemetry, DisconnectedRetrying, None);
      var s5 := ChangeTo(s4.manager, AmqpTelemetry, Connected, None);
      && Meets(s1.result, Expect(true, true, Connected, false))
      && Meets(s2.result, Expect(true, false, Connected, false))
      && Meets(s3.result, Expect(true, true, DisconnectedRetrying, true))
      && Meets(s4.result, Expect(true, false, DisconnectedRetrying, false))
      && Meets(s5.result, Expect(true, false, DisconnectedRetrying, false))
      && s5.manager.table[AmqpTelemetry].status == Connected
      && s5.manager.table[AmqpMessaging].status == DisconnectedRetrying
  {
    StateOfTwo(Init());
    var s1 := ChangeTo(Init(), AmqpTelemetry, Connected, None);
    StateOfTwo(s1.manager);
    assert s1.manager.table[AmqpTelemetry].status == Connected && s1.manager.table[AmqpMessaging].status == Disabled;
    var s2 := ChangeTo(s1.manager, AmqpMessaging, Connected, None);
    StateOfTwo(s2.manager);
    assert s2.manager.table[AmqpTelemetry].status == Connected && s2.manager.table[AmqpMessaging].status == Connected;
    var s3 := ChangeTo(s2.manager, AmqpMessaging, DisconnectedRetrying, None);
    StateOfTwo(s3.manager);
    assert s3.manager.table[AmqpTelemetry].status == Connected && s3.manager.table[AmqpMessaging].status == DisconnectedRetrying;
    var s4 := ChangeTo(s3.manager, AmqpTelemetry, DisconnectedRetrying, None);
    StateOfTwo(s4.manager);
    assert s4.manager.table[AmqpTelemetry].status == DisconnectedRetrying && s4.manager.table[AmqpMessaging].status == DisconnectedRetrying;
    var s5 := ChangeTo(s4.manager, AmqpTelemetry, Connected, None);
    StateOfTwo(s5.manager);
    assert s5.manager.table[AmqpTelemetry].status == Connected && s5.manager.table[AmqpMessaging].status == DisconnectedRetrying;
  }

  /** The last five calls of `TestMultipleConnectionStatusTransitions`, from
      the statuses the first five leave behind. */
  lemma MultipleConnectionsSecondHalf(m: Manager)
    requires Valid(m)
    requires m.table[AmqpTelemetry].status == Connected
    requires m.table[AmqpMessaging].status == DisconnectedRetrying
    ensures
      var s6 := ChangeTo(m, AmqpMessaging, Disconnected, None);
      var s7 := ChangeTo(s6.manager, AmqpTelemetry, DisconnectedRetrying, None);
      var s8 := ChangeTo(s7.manager, AmqpMessaging, Disabled, None);
      var s9 := ChangeTo(s8.manager, AmqpTelemetry, Disabled, None);
      var s10 := ChangeTo(s9.manager, AmqpTelemetry, Connected, None);
      && Meets(s6.result, Expect(true, true, Disconnected, false))
      && Meets(s7.result, Expect(true, false, Disconnected, false))
      && Meets(s8.result, Expect(true, true, DisconnectedRetrying, false))
      && Meets(s9.result, Expect(true, true, Disabled, false))
      && Meets(s10.result, Expect(true, true, Connected, false))
  {
    StateOfTwo(m);
    var s6 := ChangeTo(m, AmqpMessaging, Disconnected, None);
    StateOfTwo(s6.manager);
    assert s6.manager.table[AmqpTelemetry].status == Connected && s6.manager.table[AmqpMessaging].status == Disconnected;
    var s7 := ChangeTo(s6.manager, AmqpTelemetry, DisconnectedRetrying, None);
    StateOfTwo(s7.manager);
    assert s7.manager.table[AmqpTelemetry].status == DisconnectedRetrying && s7.manager.table[AmqpMessaging].status == Disconnected;
    var s8 := ChangeTo(s7.manager, AmqpMessaging, Disabled, None);
    StateOfTwo(s8.manager);
    assert s8.manager.table[AmqpTelemetry].status == DisconnectedRetrying && s8.manager.table[AmqpMessaging].status == Disabled;
    var s9 := ChangeTo(s8.manager, AmqpTelemetry, Disabled, None);
    StateOfTwo(s9.manager);
    assert s9.manager.table[AmqpTelemetry].status == Disabled && s9.manager.table[AmqpMessaging].status == Disabled;
    var s10 := ChangeTo(s9.manager, AmqpTelemetry, Connected, None);
    StateOfTwo(s10.manager);
    assert s10.manager.table[AmqpTelemetry].status == Connected && s10.manager.table[AmqpMessaging].status == Disabled;
  }

  /** `TestMultipleConnectionStatusTransitions`. */
  lemma MultipleConnectionStatusTransitions()
    ensures
      var s1 := ChangeTo(Init(), AmqpTelemetry, Connected, None);
      var s2 := ChangeTo(s1.manager, AmqpMessaging, Connected, None);
      var s3 := ChangeTo(s2.manager, AmqpMessaging, DisconnectedRetrying, None);
      var s4 := ChangeTo(s3.manager, AmqpTelemetry, DisconnectedRetrying, None);
      var s5 := ChangeTo(s4.manager, AmqpTelemetry, Connected, None);
      var s6 := ChangeTo(s5.manager, AmqpMessaging, Disconnected, None);
      var s7 := ChangeTo(s6.manager, AmqpTelemetry, DisconnectedRetrying, None);
      var s8 := ChangeTo(s7.manager, AmqpMessaging, Disabled, None);
      var s9 := ChangeTo(s8.manager, AmqpTelemetry, Disabled, None);
      var s10 := ChangeTo(s9.manager, AmqpTelemetry, Connected, None);
      && Meets(s1.result, Expect(true, true, Connected, false))
      && Meets(s2.result, Expect(true, false, Connected, false))
      && Meets(s3.result, Expect(true, true, DisconnectedRetrying, true))
      && Meets(s4.result, Expect(true, false, DisconnectedRetrying, false))
      && Meets(s5.result, Expect(true, false, DisconnectedRetrying, false))
      && Meets(s6.result, Expect(true, true, Disconnected, false))
      && Meets(s7.result, Expect(true, false, Disconnected, false))
      && Meets(s8.result, Expect(true, true, DisconnectedRetrying, false))
      && Meets(s9.result, Expect(true, true, Disabled, false))
      && Meets(s10.result, Expect(true, true, Connected, false))
  {
    MultipleConnectionsFirstHalf();
    var s1 := ChangeTo(Init(), AmqpTelemetry, Connected, None);
    var s2 := ChangeTo(s1.manager, AmqpMessaging, Connected, None);
    var s3 := ChangeTo(s2.manager, AmqpMessaging, DisconnectedRetrying, None);
    var s4 := ChangeTo(s3.manager, AmqpTelemetry, DisconnectedRetrying, None);
    var s5 := ChangeTo(s4.manager, AmqpTelemetry, Connected, None);
    MultipleConnectionsSecondHalf(s5.manager);
  }

  /** `TestCancelRetryingTaskWhenTransitToDisabled`. */
  lemma CancelRetryingTaskWhenTransitToDisabled()
    ensures
      var s1 := ChangeTo(Init(), AmqpTelemetry, Connected, None);
      var s2 := ChangeTo(s1.manager, AmqpTelemetry, DisconnectedRetrying, None);
      var source1 := s2.result.cancellationHandle;
      var s3 := ChangeTo(s2.manager, AmqpTelemetry, Disabled, None);
      && Meets(s1.result, Expect(true, true, Connected, false))
      && Meets(s2.result, Expect(true, true, DisconnectedRetrying, true))
      && source1.Some? && source1.value !in s2.manager.cancelled
      && Meets(s3.result, Expect(true, true, Disabled, false))
      && source1.value in s3.manager.cancelled
  {
    SingleConnectionTokenCancelledWhenDisable();
  }

  /** `TestCancelRetryingTaskWhenDisableMultipleConnections`. */
  lemma CancelRetryingTaskWhenDisableMultipleConnections()
    ensures
      var s1 := ChangeTo(Init(), AmqpTelemetry, Connected, None);
      var s2 := ChangeTo(s1.manager, AmqpMessaging, Connected, None);
      var s3 := ChangeTo(s2.manager, AmqpTelemetry, DisconnectedRetrying, None);
      var source1 := s3.result.cancellationHandle;
      var s4 := ChangeTo(s3.manager, AmqpMessaging, DisconnectedRetrying, None);
      var source2 := s4.result.cancellationHandle;
      var disabled := DisableAll(s4.manager);
      && Meets(s1.result, Expect(true, true, Connected, false))
      && Meets(s2.result, Expect(true, false, Connected, false))
      && Meets(s3.result, Expect(true, true, DisconnectedRetrying, true))
      && Meets(s4.result, Expect(true, false, DisconnectedRetrying, true))
      && source1.Some? && source2.Some?
      && source1.value !in s4.manager.cancelled && source2.value !in s4.manager.cancelled
      && State(disabled) == Disabled
      && source1.value in disabled.cancelled && source2.value in disabled.cancelled
  {
    var m0 := Init();
    StateOfTwo(m0);
    var s1 := ChangeTo(m0, AmqpTelemetry, Connected, None);
    StateOfTwo(s1.manager);
    var s2 := ChangeTo(s1.manager, AmqpMessaging, Connected, None);
    StateOfTwo(s2.manager);
    var s3 := ChangeTo(s2.manager, AmqpTelemetry, DisconnectedRetrying, None);
    StateOfTwo(s3.manager);
    var s4 := ChangeTo(s3.manager, AmqpMessaging, DisconnectedRetrying, None);
    StateOfTwo(s4.manager);
    assert s4.manager.table[AmqpTelemetry] == s3.manager.table[AmqpTelemetry];
    assert s3.result.cancellationHandle.value in Held(s4.manager);
  }
}
