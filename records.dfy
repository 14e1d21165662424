/**
 * The values exchanged between implants, the server and the operator
 * client: bacon and session records, registration and check-in messages,
 * queued tasks, requests and envelopes, and the events the server
 * publishes.
 *
 * Protobuf serialization is modelled by `Wire`: the serialized form of a
 * message is a constructor that carries the message itself, and bytes that
 * are not the encoding of any envelope are `Opaque`. Decoding is then a
 * partial inverse (`DecodeEnvelope`) that fails exactly on such bytes.
 */
module Records {
  import opened Common

  /** A persistently connected implant (clientpb.Session). */
  datatype Session = Session(
    id: string, name: string, hostname: string, uuid: string, username: string,
    uid: string, gid: string, os: string, arch: string, version: string,
    locale: string, activeC2: string, proxyUrl: string,
    remoteAddress: string, pid: int, reconnectInterval: int,
    firstContact: int, lastCheckin: int, isDead: bool)

  /** An asynchronous implant: a row of the bacon table (models.Bacon, clientpb.Bacon). */
  datatype Bacon = Bacon(
    id: string, name: string, hostname: string, uuid: string,
    username: string, uid: string, gid: string, os: string, arch: string,
    transport: string, remoteAddress: string, pid: int, filename: string,
    lastCheckin: int, version: string, reconnectInterval: int,
    activeC2: string, proxyUrl: string, locale: string,
    interval: int, jitter: int, nextCheckin: int, firstContact: int, integrity: string,
    isDead: bool, tasksCount: int, tasksCountCompleted: int)

  /** A bacon row as first created on registration: only the id is set (Go zero values elsewhere). */
  function NewBacon(id: string): (b: Bacon)
    ensures b.id == id && b.integrity == ""
  {
    Bacon(id, "", "", "", "", "", "", "", "", "", "", 0, "", 0, "", 0, "", "", "", 0, 0, 0, 0, "", false, 0, 0)
  }

  /** The host description an implant sends when it registers (sliverpb.Register). */
  datatype Register = Register(
    name: string, hostname: string, uuid: string, username: string,
    uid: string, gid: string, os: string, arch: string, pid: int,
    filename: string, version: string, reconnectInterval: int,
    activeC2: string, proxyUrl: string, locale: string)

  /** sliverpb.BaconRegister: the registration message of an asynchronous implant. */
  datatype BaconRegister = BaconRegister(
    id: string, interval: int, jitter: int, nextCheckin: int, register: Register)

  /** What the transport knows about the connection a message arrived on. */
  datatype ImplantConnection = ImplantConnection(
    transport: string, remoteAddress: string, lastMessage: int)

  /** The four states of a queued task. */
  datatype TaskState = Pending | Sent | Completed | Canceled

  /** The text form a client sees in a task's State field. */
  function StateName(s: TaskState): string {
    match s
    case Pending => "pending"
    case Sent => "sent"
    case Completed => "completed"
    case Canceled => "canceled"
  }

  lemma StateNamePending(s: TaskState)
    ensures StateName(s) == "pending" <==> s == Pending
  {
  }

  /** The only state changes the task state machine allows (staying put included). */
  predicate LegalTransition(a: TaskState, b: TaskState) {
    a == b || (a == Pending && (b == Sent || b == Canceled)) || (a == Sent && b == Completed)
  }

  /** commonpb.Request: the routing header every operator request carries. */
  datatype Request = Request(async: bool, timeout: int, baconId: string, sessionId: string)

  /** sliverpb.KillReq. */
  datatype KillReq = KillReq(request: Request, force: bool)

  /** Message type numbers used by the tasking code. */
  datatype MsgType = MsgBaconTasks | MsgKillSessionReq | MsgOther(number: int)

  /** sliverpb.Envelope: a typed payload with a correlation id. */
  datatype Envelope = Envelope(id: int, msgType: MsgType, data: Wire)

  /** Serialized messages (see the module comment). */
  datatype Wire =
    | EncodedEnvelope(envelope: Envelope)
    | EncodedRequest(request: Request)
    | EncodedKill(kill: KillReq)
    | EncodedTasks(tasks: seq<Envelope>)
    | Opaque(bytes: seq<int>)

  /** `proto.Unmarshal` into an envelope. */
  function DecodeEnvelope(w: Wire): Option<Envelope> {
    match w
    case EncodedEnvelope(e) => Some(e)
    case _ => None
  }

  lemma EnvelopeRoundTrip(e: Envelope)
    ensures DecodeEnvelope(EncodedEnvelope(e)) == Some(e)
  {
  }

  /** A queued unit of work for one bacon (models.BaconTask). */
  datatype BaconTask = BaconTask(
    id: string, envelopeId: int, baconId: string, createdAt: int,
    state: TaskState, sentAt: int, completedAt: int, description: string,
    request: Wire, response: Wire)

  /** sliverpb.BaconTasks: a check-in, either a poll (no tasks) or a batch of results. */
  datatype BaconTasksMsg = BaconTasksMsg(id: string, nextCheckin: int, tasks: seq<Envelope>)

  /** Events published on the server's event broker. */
  datatype Event =
    | BaconRegistered(bacon: Bacon)
    | BaconTaskResult(task: BaconTask)
}
