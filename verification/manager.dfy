/** The device client's connection-status manager (`DeviceClientConnectionStatusManager`)
    as an immutable value: a table of channel entries, the counter that names
    the next retry handle, and the set of handles that have been cancelled.
    `ChangeTo` and `DisableAll` return the next value instead of mutating. */
module StatusManager {
  import opened ConnectionTypes
  import opened Aggregation

  /** A channel's current status and, while it is retrying, the handle of
      its retry cancellation source. */
  datatype Entry = Entry(status: Status, retryHandle: Option<Handle>)

  datatype Manager = Manager(table: map<Channel, Entry>, nextHandle: Handle, cancelled: set<Handle>)

  /** What one `ChangeTo` call reports (`ConnectionStatusChangeResult`);
      `cancellationHandle` is `StatusChangeCancellationTokenSource`, `None` for null. */
  datatype ChangeResult = ChangeResult(
    isConnectionStatusChanged: bool,
    isClientStatusChanged: bool,
    clientStatus: Status,
    cancellationHandle: Option<Handle>)

  /** The manager after a call, together with what the call reported. */
  datatype Step = Step(manager: Manager, result: ChangeResult)

  /** Every channel has an entry. */
  predicate Total(m: Manager)
  {
    forall c: Channel :: c in m.table
  }

  /** A handle that has been issued and not cancelled. */
  predicate IsLive(m: Manager, h: Handle)
  {
    h < m.nextHandle && h !in m.cancelled
  }

  /** Handles currently held by a retrying channel. */
  function Held(m: Manager): set<Handle>
  {
    set c | c in m.table && m.table[c].retryHandle.Some? :: m.table[c].retryHandle.value
  }

  /** The manager's invariant: every channel has an entry, a channel holds a
      handle exactly while it is retrying, no two channels share a handle,
      only issued handles are cancelled, and the live handles are exactly
      the held ones. */
  ghost predicate Valid(m: Manager)
  {
    && Total(m)
    && (forall c :: c in m.table ==>
          (m.table[c].retryHandle.Some? <==> m.table[c].status == DisconnectedRetrying))
    && (forall c, d :: c in m.table && d in m.table && c != d
          && m.table[c].retryHandle.Some? && m.table[d].retryHandle.Some?
          ==> m.table[c].retryHandle.value != m.table[d].retryHandle.value)
    && (forall h :: h in m.cancelled ==> h < m.nextHandle)
    && (forall h :: h in Held(m) <==> IsLive(m, h))
  }

  /** The channels' statuses, in the order of `Channels`. */
  function Statuses(m: Manager): (ss: seq<Status>)
    requires Total(m)
    ensures |ss| == |Channels|
    ensures forall i :: 0 <= i < |Channels| ==> ss[i] == m.table[Channels[i]].status
  {
    seq(|Channels|, i requires 0 <= i < |Channels| => m.table[Channels[i]].status)
  }

  /** A status occurs in the status list iff some channel has it. */
  lemma StatusesCover(m: Manager, x: Status)
    requires Total(m)
    ensures x in Statuses(m) <==> exists c: Channel :: m.table[c].status == x
  {
    var ss := Statuses(m);
    if x in ss {
      var i :| 0 <= i < |ss| && ss[i] == x;
      assert m.table[Channels[i]].status == x;
    }
    if exists c: Channel :: m.table[c].status == x {
      var c: Channel :| m.table[c].status == x;
      ChannelsComplete(c);
      var i :| 0 <= i < |Channels| && Channels[i] == c;
      assert ss[i] == x;
    }
  }

  /** The aggregate of the channels' statuses, read channel by channel. */
  lemma ChannelAggregate(m: Manager)
    requires Total(m)
    ensures Aggregate(Statuses(m)) == Disabled <==> forall c: Channel :: m.table[c].status == Disabled
    ensures Aggregate(Statuses(m)) == Disconnected <==> exists c: Channel :: m.table[c].status == Disconnected
    ensures Aggregate(Statuses(m)) == DisconnectedRetrying <==>
              && (forall c: Channel :: m.table[c].status != Disconnected)
              && (exists c: Channel :: m.table[c].status == DisconnectedRetrying)
    ensures Aggregate(Statuses(m)) == Connected <==>
              && (forall c: Channel :: m.table[c].status == Connected || m.table[c].status == Disabled)
              && (exists c: Channel :: m.table[c].status == Connected)
  {
    AggregateMatchesPriority(Statuses(m));
    StatusesCover(m, Disconnected);
    StatusesCover(m, DisconnectedRetrying);
    StatusesCover(m, Connected);
    StatusesCover(m, Disabled);
    forall c: Channel ensures m.table[c].status in Statuses(m) {
      StatusesCover(m, m.table[c].status);
    }
  }

  /** The client-wide status (`State`): `Disabled` iff every channel is
      disabled, otherwise the most severe status some channel has. */
  function State(m: Manager): (r: Status)
    requires Total(m)
    ensures r == Disabled <==> forall c: Channel :: m.table[c].status == Disabled
    ensures r == Disconnected <==> exists c: Channel :: m.table[c].status == Disconnected
    ensures r == DisconnectedRetrying <==>
              && (forall c: Channel :: m.table[c].status != Disconnected)
              && (exists c: Channel :: m.table[c].status == DisconnectedRetrying)
    ensures r == Connected <==>
              && (forall c: Channel :: m.table[c].status == Connected || m.table[c].status == Disabled)
              && (exists c: Channel :: m.table[c].status == Connected)
  {
    ChannelAggregate(m);
    Aggregate(Statuses(m))
  }

  /** A freshly constructed manager: every channel `Disabled`, no handles. */
  function Init(): (m: Manager)
    ensures Valid(m)
    ensures forall c: Channel :: m.table[c].status == Disabled
    ensures State(m) == Disabled
    ensures forall h :: !IsLive(m, h)
  {
    var m := Manager(map c | c in Channels :: Entry(Disabled, None), 0, {});
    assert Total(m) by {
      forall c: Channel ensures c in m.table {
        ChannelsComplete(c);
      }
    }
    assert Held(m) == {};
    m
  }

  /** Whether a request to move a channel from `cur` to `target` is accepted:
      the optional expected prior status must match the current one, and
      `DisconnectedRetrying` can only be entered from `Connected`. */
  predicate Accepts(cur: Status, target: Status, expectedPrior: Option<Status>)
  {
    && (expectedPrior.None? || expectedPrior.value == cur)
    && (target == DisconnectedRetrying ==> cur == Connected)
  }

  /** `ChangeTo(channel, target[, expectedPrior])`. A rejected request changes
      nothing. An accepted one cancels the handle the channel held (if it was
      retrying), issues a fresh handle when entering `DisconnectedRetrying`,
      and reports whether the client-wide status moved. */
  function ChangeTo(m: Manager, c: Channel, target: Status, expectedPrior: Option<Status>): (s: Step)
    requires Valid(m)
    ensures Valid(s.manager)
    ensures s.result.isConnectionStatusChanged <==> Accepts(m.table[c].status, target, expectedPrior)
    ensures !s.result.isConnectionStatusChanged ==>
              s.manager == m && !s.result.isClientStatusChanged && s.result.cancellationHandle.None?
    ensures s.result.isConnectionStatusChanged ==>
              && s.manager.table[c].status == target
              && (forall d :: d != c ==> s.manager.table[d] == m.table[d])
    ensures s.result.clientStatus == State(s.manager)
    ensures s.result.isClientStatusChanged <==> State(s.manager) != State(m)
    ensures s.result.cancellationHandle.Some? <==>
              s.result.isConnectionStatusChanged && target == DisconnectedRetrying
    ensures s.result.cancellationHandle.Some? ==>
              && s.result.cancellationHandle.value >= m.nextHandle
              && IsLive(s.manager, s.result.cancellationHandle.value)
              && s.manager.table[c].retryHandle == s.result.cancellationHandle
    ensures m.cancelled <= s.manager.cancelled && m.nextHandle <= s.manager.nextHandle
  {
    var cur := m.table[c];
    if !Accepts(cur.status, target, expectedPrior) then
      Step(m, ChangeResult(false, false, State(m), None))
    else
      var cancelled := m.cancelled + HandleSet(cur.retryHandle);
      var handle := if target == DisconnectedRetrying then Some(m.nextHandle) else None;
      var next := if handle.Some? then m.nextHandle + 1 else m.nextHandle;
      var m' := Manager(m.table[c := Entry(target, handle)], next, cancelled);
      AcceptedKeepsValid(m, c, target, m');
      Step(m', ChangeResult(true, State(m') != State(m), State(m'), handle))
  }

  /** The handles an optional handle stands for. */
  function HandleSet(h: Option<Handle>): set<Handle>
  {
    if h.Some? then {h.value} else {}
  }

  /** Replacing one channel's entry swaps that channel's handle in the held
      set, provided no other channel held the same handle. */
  lemma HeldAfterReplace(m: Manager, c: Channel, e: Entry, m': Manager)
    requires c in m.table
    requires m'.table == m.table[c := e]
    requires forall d :: d in m.table && d != c && m.table[d].retryHandle.Some? ==>
               m.table[d].retryHandle != m.table[c].retryHandle
    ensures Held(m') == Held(m) - HandleSet(m.table[c].retryHandle) + HandleSet(e.retryHandle)
  {
    forall h | h in Held(m') ensures h in Held(m) - HandleSet(m.table[c].retryHandle) + HandleSet(e.retryHandle) {
      var d :| d in m'.table && m'.table[d].retryHandle.Some? && m'.table[d].retryHandle.value == h;
      if d != c {
        assert m'.table[d] == m.table[d];
      }
    }
    forall h | h in Held(m) - HandleSet(m.table[c].retryHandle) + HandleSet(e.retryHandle) ensures h in Held(m') {
      if h in HandleSet(e.retryHandle) {
        assert m'.table[c] == e;
      } else {
        var d :| d in m.table && m.table[d].retryHandle.Some? && m.table[d].retryHandle.value == h;
        assert m'.table[d] == m.table[d];
      }
    }
  }

  /** The bookkeeping of an accepted `ChangeTo` preserves the invariant. */
  lemma AcceptedKeepsValid(m: Manager, c: Channel, target: Status, m': Manager)
    requires Valid(m)
    requires target == DisconnectedRetrying ==> m.table[c].retryHandle.None?
    requires m'.table == m.table[c := Entry(target, if target == DisconnectedRetrying then Some(m.nextHandle) else None)]
    requires m'.nextHandle == if target == DisconnectedRetrying then m.nextHandle + 1 else m.nextHandle
    requires m'.cancelled == m.cancelled + HandleSet(m.table[c].retryHandle)
    ensures Valid(m')
  {
    var dropped := HandleSet(m.table[c].retryHandle);
    var added := HandleSet(m'.table[c].retryHandle);
    HeldAfterReplace(m, c, m'.table[c], m');
    assert forall h :: h in dropped ==> h in Held(m) && IsLive(m, h);
    assert m.nextHandle !in Held(m);
    forall h ensures h in Held(m') <==> IsLive(m', h) {
      assert h in Held(m) <==> IsLive(m, h);
    }
  }

  /** `DisableAllConnections`: every channel becomes `Disabled` and every
      live handle is cancelled. */
  function DisableAll(m: Manager): (m': Manager)
    requires Valid(m)
    ensures Valid(m')
    ensures forall c: Channel :: m'.table[c].status == Disabled
    ensures State(m') == Disabled
    ensures forall h :: IsLive(m, h) ==> h in m'.cancelled
    ensures forall h :: !IsLive(m', h)
    ensures m.cancelled <= m'.cancelled && m'.nextHandle == m.nextHandle
  {
    var m' := Manager(map c | c in m.table :: Entry(Disabled, None), m.nextHandle, m.cancelled + Held(m));
    assert Held(m') == {};
    m'
  }
}
