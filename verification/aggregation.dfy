/** The client-wide status computed from the channels' statuses: the most
    severe status among the channels that are not `Disabled`, and `Disabled`
    only when every channel is. */
module Aggregation {
  import opened ConnectionTypes

  /** Severity rank: `Disconnected` > `DisconnectedRetrying` > `Connected`.
      `Disabled` ranks below all of them, so it can only win when alone. */
  function Severity(s: Status): nat
  {
    match s
    case Disabled => 0
    case Connected => 1
    case DisconnectedRetrying => 2
    case Disconnected => 3
  }

  /** The more severe of two statuses. */
  function Worse(a: Status, b: Status): (r: Status)
    ensures r == a || r == b
    ensures Severity(a) <= Severity(r) && Severity(b) <= Severity(r)
  {
    if Severity(a) >= Severity(b) then a else b
  }

  /** Aggregate of a list of channel statuses. */
  function Aggregate(ss: seq<Status>): (r: Status)
    ensures r == Disabled <==> forall i :: 0 <= i < |ss| ==> ss[i] == Disabled
    ensures r != Disabled ==> r in ss
    ensures forall i :: 0 <= i < |ss| ==> Severity(ss[i]) <= Severity(r)
  {
    if |ss| == 0 then Disabled
    else Worse(Aggregate(ss[..|ss| - 1]), ss[|ss| - 1])
  }

  /** Reference definition: the aggregation rule read as a priority list. */
  function AggregateByPriority(ss: seq<Status>): Status
  {
    if Disconnected in ss then Disconnected
    else if DisconnectedRetrying in ss then DisconnectedRetrying
    else if Connected in ss then Connected
    else Disabled
  }

  /** The fold and the priority list agree on every list of statuses. */
  lemma AggregateMatchesPriority(ss: seq<Status>)
    ensures Aggregate(ss) == AggregateByPriority(ss)
  {
    var r := Aggregate(ss);
    if Disconnected in ss {
      var i :| 0 <= i < |ss| && ss[i] == Disconnected;
      assert Severity(ss[i]) <= Severity(r);
    } else if DisconnectedRetrying in ss {
      var i :| 0 <= i < |ss| && ss[i] == DisconnectedRetrying;
      assert Severity(ss[i]) <= Severity(r);
    } else if Connected in ss {
      var i :| 0 <= i < |ss| && ss[i] == Connected;
      assert Severity(ss[i]) <= Severity(r);
    }
  }

  /** The aggregate does not depend on the order of the channels. */
  lemma AggregateOrderIndependent(ss: seq<Status>, ts: seq<Status>)
    requires multiset(ss) == multiset(ts)
    ensures Aggregate(ss) == Aggregate(ts)
  {
    assert forall x :: x in ss <==> x in multiset(ss);
    assert forall x :: x in ts <==> x in multiset(ts);
    AggregateMatchesPriority(ss);
    AggregateMatchesPriority(ts);
  }
}
