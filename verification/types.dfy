/** Vocabulary shared by the connection-status manager: the statuses a
    channel or the whole client can be in, the channels, and the handles that
    stand for retry cancellation sources. */
module ConnectionTypes {

  /** The client-visible connection status (`ConnectionStatus`). The source's
      `Disconnected_Retrying` is spelt `DisconnectedRetrying` here. */
  datatype Status = Disabled | Disconnected | DisconnectedRetrying | Connected

  /** The logical transport channels of the device client (`ConnectionType`). */
  datatype Channel = AmqpTelemetry | AmqpMessaging

  /** Every channel, in a fixed order; the aggregate does not depend on it. */
  const Channels: seq<Channel> := [AmqpTelemetry, AmqpMessaging]

  lemma ChannelsComplete(c: Channel)
    ensures c in Channels
  {
  }

  datatype Option<+T> = None | Some(value: T)

  /** A retry cancellation source, named by the order in which it was issued.
      Whether it has been cancelled is recorded by the manager. */
  type Handle = nat
}
