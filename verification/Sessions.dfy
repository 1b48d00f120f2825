/** The mutable part of session objects, as a table indexed by session number.
    Go code reaches it through pointers held by clients and by subscriptions. */
module Sessions {
  import opened Base

  /** Pointers to clientMessage and Client objects, as indices. */
  type MsgRef = nat
  type ConnRef = nat

  /** A session object: its fixed fields, session.client and session.MessageStore.Messages. */
  datatype SessionState = SessionState(ref: SessionRef, client: Option<ConnRef>, messages: map<PacketId, MsgRef>)

  /** `sub.Session.client = nil` */
  function Detach(table: seq<SessionState>, s: SessionRef): (r: seq<SessionState>)
    ensures |r| == |table|
  {
    if s.num < |table| then table[s.num := table[s.num].(client := None)] else table
  }

  class SessionTable {
    var entries: seq<SessionState>

    constructor ()
      ensures entries == []
    {
      entries := [];
    }
  }
}
