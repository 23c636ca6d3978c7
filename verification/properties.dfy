/** Properties of the connection-status manager that relate several calls or
    restate, for every input, what the unit tests check on particular runs. */
module ManagerProperties {
  import opened ConnectionTypes
  import opened Aggregation
  import opened StatusManager

  /** `DisconnectedRetrying` is entered only from `Connected`; from any other
      status the request is refused and nothing changes. */
  lemma RetryingOnlyFromConnected(m: Manager, c: Channel, expectedPrior: Option<Status>)
    requires Valid(m)
    ensures var s := ChangeTo(m, c, DisconnectedRetrying, expectedPrior);
            s.result.isConnectionStatusChanged <==>
              m.table[c].status == Connected && (expectedPrior.None? || expectedPrior.value == Connected)
    ensures m.table[c].status != Connected ==>
              ChangeTo(m, c, DisconnectedRetrying, expectedPrior) == Step(m, ChangeResult(false, false, State(m), None))
  {
  }

  /** A request whose expected prior status is not the channel's current
      status is refused and nothing changes. */
  lemma CompareAndSwapMismatchRejected(m: Manager, c: Channel, target: Status, expectedPrior: Status)
    requires Valid(m)
    requires m.table[c].status != expectedPrior
    ensures ChangeTo(m, c, target, Some(expectedPrior)) == Step(m, ChangeResult(false, false, State(m), None))
  {
  }

  /** `Disabled` is not terminal: a disabled channel may be moved back to
      `Connected`, and the client becomes `Connected` exactly when no other
      channel is worse than `Connected`. */
  lemma DisabledChannelReconnects(m: Manager, c: Channel, expectedPrior: Option<Status>)
    requires Valid(m)
    requires m.table[c].status == Disabled
    requires expectedPrior.None? || expectedPrior.value == Disabled
    ensures var s := ChangeTo(m, c, Connected, expectedPrior);
            && s.result.isConnectionStatusChanged
            && s.manager.table[c].status == Connected
            && (s.result.clientStatus == Connected <==>
                  forall d: Channel :: d != c ==> m.table[d].status in {Connected, Disabled})
  {
    var s := ChangeTo(m, c, Connected, expectedPrior);
    if forall d: Channel :: d != c ==> m.table[d].status in {Connected, Disabled} {
      forall d: Channel
        ensures s.manager.table[d].status == Connected || s.manager.table[d].status == Disabled
      {
        if d != c {
          assert s.manager.table[d] == m.table[d];
        }
      }
    }
  }

  /** Two channels retrying at the same time hold two distinct live handles. */
  lemma DistinctRetryHandles(m: Manager, c: Channel, d: Channel)
    requires Valid(m)
    requires c != d
    requires m.table[c].status == DisconnectedRetrying && m.table[d].status == DisconnectedRetrying
    ensures m.table[c].retryHandle.Some? && m.table[d].retryHandle.Some?
    ensures m.table[c].retryHandle.value != m.table[d].retryHandle.value
    ensures IsLive(m, m.table[c].retryHandle.value) && IsLive(m, m.table[d].retryHandle.value)
  {
    assert m.table[c].retryHandle.value in Held(m);
    assert m.table[d].retryHandle.value in Held(m);
  }

  /** Moving a retrying channel to `Disabled` cancels the handle it held. */
  lemma DisablingRetryingChannelCancelsHandle(m: Manager, c: Channel, expectedPrior: Option<Status>)
    requires Valid(m)
    requires m.table[c].status == DisconnectedRetrying
    requires expectedPrior.None? || expectedPrior.value == DisconnectedRetrying
    ensures m.table[c].retryHandle.Some?
    ensures var s := ChangeTo(m, c, Disabled, expectedPrior);
            && s.result.isConnectionStatusChanged
            && m.table[c].retryHandle.value in s.manager.cancelled
            && !IsLive(s.manager, m.table[c].retryHandle.value)
  {
  }

  /** Disabling everything a second time changes nothing. */
  lemma DisableAllIdempotent(m: Manager)
    requires Valid(m)
    ensures DisableAll(DisableAll(m)) == DisableAll(m)
  {
    var m1 := DisableAll(m);
    assert Held(m1) == {};
    assert DisableAll(m1).table == m1.table;
  }

  /** Channels `cs` disabled one request at a time, as `ChangeTo(c, Disabled)` does. */
  function DisableEach(m: Manager, cs: seq<Channel>): (m': Manager)
    requires Valid(m)
    ensures Valid(m')
    decreases |cs|
  {
    if cs == [] then m
    else DisableEach(ChangeTo(m, cs[0], Disabled, None).manager, cs[1..])
  }

  /** Handles held by the channels in `cs`. */
  function HeldBy(m: Manager, cs: set<Channel>): set<Handle>
  {
    set c | c in cs && c in m.table && m.table[c].retryHandle.Some? :: m.table[c].retryHandle.value
  }

  /** The effect of disabling exactly the channels in `cs`. */
  function DisabledOn(m: Manager, cs: set<Channel>): Manager
  {
    Manager(
      map c | c in m.table :: if c in cs then Entry(Disabled, None) else m.table[c],
      m.nextHandle,
      m.cancelled + HeldBy(m, cs))
  }

  /** Clearing one channel's entry moves its handle out of the held set. */
  lemma HeldByClearedChannel(m: Manager, m1: Manager, c: Channel, cs: set<Channel>)
    requires c in m.table
    requires m1.table == m.table[c := Entry(Disabled, None)]
    ensures HeldBy(m, cs + {c}) == HeldBy(m1, cs) + HandleSet(m.table[c].retryHandle)
  {
    forall h | h in HeldBy(m, cs + {c}) ensures h in HeldBy(m1, cs) + HandleSet(m.table[c].retryHandle) {
      var d :| d in cs + {c} && d in m.table && m.table[d].retryHandle.Some? && m.table[d].retryHandle.value == h;
      if d != c {
        assert m1.table[d] == m.table[d];
      }
    }
    forall h | h in HeldBy(m1, cs) ensures h in HeldBy(m, cs + {c}) {
      var d :| d in cs && d in m1.table && m1.table[d].retryHandle.Some? && m1.table[d].retryHandle.value == h;
      assert d != c;
      assert m1.table[d] == m.table[d];
    }
  }

  /** Disabling one channel with `ChangeTo` clears its entry and cancels its handle. */
  lemma ChangeToDisabledClears(m: Manager, c: Channel)
    requires Valid(m)
    ensures var m1 := ChangeTo(m, c, Disabled, None).manager;
            && m1.table == m.table[c := Entry(Disabled, None)]
            && m1.nextHandle == m.nextHandle
            && m1.cancelled == m.cancelled + HandleSet(m.table[c].retryHandle)
  {
  }

  /** Clearing one more channel on top of a disabled set. */
  lemma DisabledOnStep(m: Manager, m1: Manager, c: Channel, cs: set<Channel>)
    requires c in m.table
    requires m1.table == m.table[c := Entry(Disabled, None)]
    requires m1.nextHandle == m.nextHandle
    requires m1.cancelled == m.cancelled + HandleSet(m.table[c].retryHandle)
    ensures DisabledOn(m1, cs) == DisabledOn(m, cs + {c})
  {
    HeldByClearedChannel(m, m1, c, cs);
    assert DisabledOn(m1, cs).table == DisabledOn(m, cs + {c}).table;
  }

  /** Disabling a list of channels one by one disables exactly those channels. */
  lemma {:induction false} DisableEachIsDisabledOn(m: Manager, cs: seq<Channel>)
    requires Valid(m)
    ensures DisableEach(m, cs) == DisabledOn(m, set c | c in cs)
    decreases |cs|
  {
    if cs == [] {
      assert DisabledOn(m, {}).table == m.table;
    } else {
      var m1 := ChangeTo(m, cs[0], Disabled, None).manager;
      var rest := set c | c in cs[1..];
      assert rest + {cs[0]} == set c | c in cs;
      ChangeToDisabledClears(m, cs[0]);
      calc {
        DisableEach(m, cs);
        DisableEach(m1, cs[1..]);
        { DisableEachIsDisabledOn(m1, cs[1..]); }
        DisabledOn(m1, rest);
        { DisabledOnStep(m, m1, cs[0], rest); }
        DisabledOn(m, rest + {cs[0]});
      }
    }
  }

  /** Disabling a set that holds every channel is `DisableAll`. */
  lemma DisabledOnEveryChannel(m: Manager, all: set<Channel>)
    requires Valid(m)
    requires forall c: Channel :: c in all
    ensures DisabledOn(m, all) == DisableAll(m)
  {
    assert DisabledOn(m, all).table == DisableAll(m).table;
    assert HeldBy(m, all) == Held(m);
  }

  /** `DisableAllConnections` has the same effect as moving every channel to
      `Disabled` with `ChangeTo`, one after the other. */
  lemma DisableAllIsDisablingEachChannel(m: Manager)
    requires Valid(m)
    ensures DisableAll(m) == DisableEach(m, Channels)
  {
    DisableEachIsDisabledOn(m, Channels);
    var all := set c | c in Channels;
    forall c: Channel ensures c in all {
      ChannelsComplete(c);
    }
    DisabledOnEveryChannel(m, all);
  }
}
