/**
 * The operator client's state: the active target chosen with `use`, the
 * socks proxies it runs, the callbacks waiting for asynchronous task
 * results, the RPCs it has issued and the lines it has printed.
 */
module ClientState {
  import opened Common
  import opened Records

  /** An interactive target: exactly one of a session or a bacon. */
  datatype Target = SessionTarget(session: Session) | BaconTarget(bacon: Bacon)

  function SessionId(s: Session): string { s.id }

  function BaconId(b: Bacon): string { b.id }

  /** The errors client commands produce or pass on. */
  datatype ClientError =
    | RpcFailure(text: string)          // an RPC error, passed on unchanged
    | NoSessionOrBaconWithId(id: string)
    | NoSessionsOrBacons
    | NoSessionsOrBaconsSelected
    | NoSelection
    | NoBacons
    | BaconNotFound
    | SessionDoesNotExist
    | BaconIntervalTooShort
    | NoPendingTasks
    | InvalidRegex(message: string)     // regexp.Compile's error for a malformed pattern

  /** The text `%s` prints for an error. */
  function ErrorText(e: ClientError): string {
    match e
    case RpcFailure(text) => text
    case NoSessionOrBaconWithId(id) => "no session or bacon found with ID " + id
    case NoSessionsOrBacons => "no sessions or bacons \U{1F641}"
    case NoSessionsOrBaconsSelected => "no sessions or bacons selected \U{1F914}"
    case NoSelection => "no selection"
    case NoBacons => "no bacons"
    case BaconNotFound => "no bacon found for this ID"
    case SessionDoesNotExist => "session does not exist"
    case BaconIntervalTooShort => "bacon interval must be 5s or greater"
    case NoPendingTasks => "No pending tasks for bacon"
    case InvalidRegex(message) => message
  }

  /** A reply from an RPC, or the error it returned. */
  datatype Outcome<T> = Ok(value: T) | Fail(error: ClientError)

  /** An entry of the client's socks proxy table. */
  datatype SocksProxy = SocksProxy(id: int, sessionId: string)

  /** commonpb.Response: the error text and the async tasking of an implant reply. */
  datatype Response = Response(err: string, async: bool, taskId: string)

  /** What a registered callback does when its task's result arrives. */
  datatype Callback =
    | PrintTokenOwnerCallback
    | PrintPrivsCallback(pid: int, baconId: Option<string>)   // the bacon the closure captured, nil for a session

  /** The requests the client sends; listings of sessions and bacons are inputs and are not logged. */
  datatype RpcCall =
    | KillCall(kill: KillReq)
    | RmBaconCall(id: string)
    | GetBaconCall(id: string)
    | GetBaconTasksCall(baconId: string)
    | GetBaconTaskContentCall(id: string)
    | CancelBaconTaskCall(id: string)
    | CurrentTokenOwnerCall(request: Request)
    | GetPrivsCall(request: Request)
    | UpdateIntegrityCall(baconId: string, integrity: string)

  /** The proxies whose id is not `id`. */
  function IdIsNot(id: int): SocksProxy -> bool {
    (p: SocksProxy) => p.id != id
  }

  /** No two proxies share an id. */
  ghost predicate IdsDistinct(socks: seq<SocksProxy>) {
    forall i, j :: 0 <= i < j < |socks| ==> socks[i].id != socks[j].id
  }

  class Console {
    var activeSession: Option<Session>
    var activeBacon: Option<Bacon>
    /** The socks proxy registry, in the order its listing returns it. */
    var socks: seq<SocksProxy>
    var callbacks: map<string, Callback>
    var rpcs: seq<RpcCall>
    /** The text of every print, without its final newline. */
    var output: seq<string>
    /** The targets a wrapped command has been run against, in order. */
    var runs: seq<Target>

    /** The active target is at most one of a session or a bacon. */
    ghost predicate Valid()
      reads this
    {
      !(activeSession.Some? && activeBacon.Some?)
    }

    /** The socks proxy registry holds each proxy id at most once. */
    ghost predicate SocksDistinct()
      reads this
    {
      IdsDistinct(socks)
    }

    /** Since the calling method began, only the RPC log and the output changed. */
    twostate predicate OnlyLogged()
      reads this
    {
      activeSession == old(activeSession) && activeBacon == old(activeBacon) &&
      socks == old(socks) && callbacks == old(callbacks) && runs == old(runs)
    }

    constructor()
      ensures Valid() && activeSession == None && activeBacon == None
      ensures socks == [] && callbacks == map[] && rpcs == [] && output == [] && runs == []
    {
      activeSession := None;
      activeBacon := None;
      socks := [];
      callbacks := map[];
      rpcs := [];
      output := [];
      runs := [];
    }

    /** ActiveTarget.Set, which refuses a session and a bacon at once. */
    method SetActive(s: Option<Session>, b: Option<Bacon>)
      requires !(s.Some? && b.Some?)
      modifies this
      ensures Valid() && activeSession == s && activeBacon == b
      ensures socks == old(socks) && callbacks == old(callbacks) && rpcs == old(rpcs)
      ensures output == old(output) && runs == old(runs)
    {
      activeSession := s;
      activeBacon := b;
    }

    method Print(line: string)
      modifies this
      ensures output == old(output) + [line]
      ensures activeSession == old(activeSession) && activeBacon == old(activeBacon)
      ensures socks == old(socks) && callbacks == old(callbacks) && rpcs == old(rpcs) && runs == old(runs)
    {
      output := output + [line];
    }

    /** Each line printed in turn. */
    method PrintLines(lines: seq<string>)
      modifies this
      ensures output == old(output) + lines
      ensures activeSession == old(activeSession) && activeBacon == old(activeBacon)
      ensures socks == old(socks) && callbacks == old(callbacks) && rpcs == old(rpcs) && runs == old(runs)
    {
      for i := 0 to |lines|
        invariant output == old(output) + lines[..i]
        invariant activeSession == old(activeSession) && activeBacon == old(activeBacon)
        invariant socks == old(socks) && callbacks == old(callbacks) && rpcs == old(rpcs) && runs == old(runs)
      {
        Print(lines[i]);
        assert lines[..i + 1] == lines[..i] + [lines[i]];
      }
      assert lines[..|lines|] == lines;
    }

    /**
     * A wrapped command run against the active target; only the target it
     * ran against is recorded. What the command itself prints, sends or
     * registers is not part of this model.
     */
    method Run()
      requires activeSession.Some? != activeBacon.Some?
      modifies this
      ensures activeSession == old(activeSession) && activeBacon == old(activeBacon)
      ensures runs == old(runs) + [if activeSession.Some? then SessionTarget(activeSession.value) else BaconTarget(activeBacon.value)]
      ensures socks == old(socks) && callbacks == old(callbacks) && rpcs == old(rpcs) && output == old(output)
    {
      runs := runs + [if activeSession.Some? then SessionTarget(activeSession.value) else BaconTarget(activeBacon.value)];
    }

    /** SocksProxies.Remove: the proxy with this id leaves the registry. */
    method RemoveSocks(id: int)
      modifies this
      ensures socks == Filter(old(socks), IdIsNot(id))
      ensures activeSession == old(activeSession) && activeBacon == old(activeBacon)
      ensures callbacks == old(callbacks) && rpcs == old(rpcs) && output == old(output) && runs == old(runs)
    {
      socks := Filter(socks, IdIsNot(id));
    }

    /** AddBaconCallback: the callback waits for the result of task `taskId`, replacing any earlier one. */
    method AddCallback(taskId: string, cb: Callback)
      modifies this
      ensures callbacks == old(callbacks)[taskId := cb]
      ensures activeSession == old(activeSession) && activeBacon == old(activeBacon)
      ensures socks == old(socks) && rpcs == old(rpcs) && output == old(output) && runs == old(runs)
    {
      callbacks := callbacks[taskId := cb];
    }

    method Call(rpc: RpcCall)
      modifies this
      ensures rpcs == old(rpcs) + [rpc]
      ensures activeSession == old(activeSession) && activeBacon == old(activeBacon)
      ensures socks == old(socks) && callbacks == old(callbacks) && output == old(output) && runs == old(runs)
    {
      rpcs := rpcs + [rpc];
    }
  }

  /**
   * ActiveTarget.Request: the routing header for a command on the active
   * target (asynchronous exactly when the target is a bacon).
   */
  function TargetRequest(s: Option<Session>, b: Option<Bacon>, timeout: int): Request {
    Request(b.Some? && s.None?, timeout,
            if s.None? && b.Some? then b.value.id else "",
            if s.Some? then s.value.id else "")
  }
}
