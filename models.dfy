/**
  The plain records of the wiring engine: the connection type enum, a resolved
  connection, a dynamic rule, and the connect flags the host receives.
*/
module Models {
  import opened Wrappers

  /** Host node handles and runtime types are opaque identities. */
  type NodeId = nat
  type TypeId = nat

  /** `SignalConnectionType`. */
  datatype ConnectionType = Normal | Deferred | OneShot

  /** The host's `ConnectFlags` bits that the engine uses (Godot: DEFERRED = 1, ONE_SHOT = 4). */
  const FLAG_DEFERRED: nat := 1
  const FLAG_ONE_SHOT: nat := 4

  /** The `switch` that turns a connection type into connect flags; anything else passes 0. */
  function ConnectFlags(t: ConnectionType): nat
  {
    match t
    case Deferred => FLAG_DEFERRED
    case OneShot => FLAG_ONE_SHOT
    case Normal => 0
  }

  /** Reading the flags back: each flag value the engine passes names one connection type. */
  function ConnectionTypeOfFlags(flags: nat): Option<ConnectionType>
  {
    if flags == 0 then Some(Normal)
    else if flags == FLAG_DEFERRED then Some(Deferred)
    else if flags == FLAG_ONE_SHOT then Some(OneShot)
    else None
  }

  /** The flag mapping loses nothing: distinct types get distinct flags, and Normal is 0. */
  lemma ConnectFlagsRoundTrip(t: ConnectionType)
    ensures ConnectionTypeOfFlags(ConnectFlags(t)) == Some(t)
    ensures ConnectFlags(t) == 0 <==> t == Normal
  {
  }

  /** `SignalConnection`: who emits, who receives, which signal and which handler method. */
  datatype SignalConnection = SignalConnection(
    source: NodeId,
    target: NodeId,
    signalName: string,
    methodName: string,
    connectionType: ConnectionType)

  /** `DynamicSignalConnection`: a rule that has no source until a child resolves it. */
  datatype DynamicSignalConnection = DynamicSignalConnection(
    owner: NodeId,
    nodePath: string,
    signalName: string,
    methodName: string,
    connectionType: ConnectionType)
}
