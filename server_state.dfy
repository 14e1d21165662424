/**
 * The server's mutable state: the bacon and task tables of the database,
 * the event broker's log, the live session table, and the requests handed
 * to live sessions without waiting for a reply.
 */
module ServerState {
  import opened Records
  import opened BaconTable
  import opened TaskTable

  /** The errors the bacon and kill RPCs return. */
  datatype RpcError =
    | ErrDatabaseFailure
    | ErrInvalidBaconID
    | ErrInvalidBeaconID
    | ErrInvalidBaconTaskID
    | ErrInvalidBaconTaskCancelState
    | DatabaseError  // a raw database error passed through unchanged

  /** A request sent to a live session without awaiting its reply (`go session.Request(...)`). */
  datatype Delivery = Delivery(sessionId: string, msgType: MsgType, timeout: int, data: Wire)

  class Server {
    var bacons: seq<Bacon>
    var tasks: seq<BaconTask>
    var events: seq<Event>
    var sessions: map<string, Session>
    var deliveries: seq<Delivery>

    /**
     * Bacon ids are unique; task ids are unique and tasks are kept in
     * creation order; every live session is stored under its own id.
     */
    ghost predicate Valid()
      reads this
    {
      UniqueBaconIds(bacons) && WellFormed(tasks) &&
      forall id :: id in sessions ==> sessions[id].id == id
    }

    constructor()
      ensures Valid()
      ensures bacons == [] && tasks == [] && events == [] && sessions == map[] && deliveries == []
    {
      bacons := [];
      tasks := [];
      events := [];
      sessions := map[];
      deliveries := [];
    }
  }
}
