/**
 * browser/chrome/chrome.go: the Chrome session. Chrome embeds BaseBrowser (here the
 * `base` object it owns) and keeps its own request counter `id`, which shadows the
 * unused BaseBrowser.Id and starts at 1.
 *
 * Modelled: target selection and dialling as one decision over the environment of an
 * attempt, the bounded retry loop, id issuance with the pending table for Load and
 * Eval, the interpretation of the reply each of them waits for, one step of the
 * dispatcher, and the start -> connect -> kill-on-failure sequence of New.
 */
module ChromeBrowser {
  import opened Fmt
  import opened Browser
  import Retry

  /** The debugging port Chrome is launched with and polled on. */
  const DebugPort: int := 9222

  /** New's retry budget (`connectWebSocketWithRetry(10, ...)`). */
  const MaxConnectAttempts: int := 10

  /** One entry of the `/json` target list. */
  datatype Target = Target(webSocketDebuggerUrl: string)

  /** What the discovery GET produced: a transport error, an undecodable body, or targets. */
  datatype Discovery = GetFailed(cause: string) | DecodeFailed(cause: string) | Listed(targets: seq<Target>)

  /**
   * The world as one connection attempt sees it: whether the port opened within the
   * poll timeout, what discovery returned, and whether dialling the URL failed.
   */
  datatype AttemptEnv = AttemptEnv(portOpen: bool, discovery: Discovery, dialError: Option<string>)

  /**
   * What one connectWebSocket did: whether it issued the discovery request, which URL
   * it dialled if any, and its error.
   */
  datatype Attempt = Attempt(fetched: bool, dialled: Option<string>, err: Option<Error>)

  /** The decisions of connectWebSocket (chrome.go:94-130). */
  function Connect(env: AttemptEnv): (a: Attempt)
    ensures a.fetched <==> env.portOpen
    ensures !env.portOpen ==> a.err == Some(PortNotOpen("Chrome", DebugPort))
    ensures a.dialled.Some? <==> env.portOpen && env.discovery.Listed? && |env.discovery.targets| > 0
    ensures a.dialled.Some? ==> a.dialled.value == env.discovery.targets[0].webSocketDebuggerUrl
    ensures env.portOpen && env.discovery.GetFailed? ==> a.err == Some(DiscoveryFailed(env.discovery.cause))
    ensures env.portOpen && env.discovery.DecodeFailed? ==> a.err == Some(TargetsUndecodable(env.discovery.cause))
    ensures env.portOpen && env.discovery == Listed([]) ==> a.err == Some(NoTargets)
    ensures a.dialled.Some? && env.dialError.Some? ==> a.err == Some(DialFailed(env.dialError.value))
    ensures a.err.None? <==> a.dialled.Some? && env.dialError.None?
  {
    if !env.portOpen then
      Attempt(false, None, Some(PortNotOpen("Chrome", DebugPort)))
    else
      match env.discovery
      case GetFailed(cause) => Attempt(true, None, Some(DiscoveryFailed(cause)))
      case DecodeFailed(cause) => Attempt(true, None, Some(TargetsUndecodable(cause)))
      case Listed(targets) =>
        if |targets| == 0 then
          Attempt(true, None, Some(NoTargets))
        else
          var url := targets[0].webSocketDebuggerUrl;
          match env.dialError
          case Some(cause) => Attempt(true, Some(url), Some(DialFailed(cause)))
          case None => Attempt(true, Some(url), None)
  }

  /** The attempt outcomes a sequence of environments gives the retry loop. */
  function Outcomes(env: nat -> AttemptEnv): nat -> Option<Error> {
    (i: nat) => Connect(env(i)).err
  }

  /** The connection a successful attempt leaves behind: open, to the URL it dialled. */
  function Dialled(env: AttemptEnv): Conn
    requires Connect(env).err.None?
  {
    Conn(Connect(env).dialled.value, true)
  }

  /** The two commands the session sends. */
  datatype Params = Navigate(url: string) | Evaluate(expression: string)

  /** One request frame: `{id, method, params}`. */
  datatype Request = Request(id: int32, command: string, params: Params)

  /** How a command's issuance ended: rejected with an error, or sent and waiting. */
  datatype Issued = Rejected(err: Error) | Awaiting(request: Request, ch: ResponseChan)

  /** The verdict of Load on the reply it waited for (chrome.go:211-215). */
  function LoadReply(res: Result): (err: Option<Error>)
    ensures err.Some? <==> res.error.Some?
    ensures res.error.Some? ==> err == Some(NavigationError(res.error.value.message))
  {
    match res.error
    case Some(e) => Some(NavigationError(e.message))
    case None => None
  }

  /** fmt.Sprintf("%v", v) of a decoded value; a string is used verbatim. */
  function Render(v: RemoteValue): string {
    match v
    case StringValue(s) => s
    case NilValue => "<nil>"
    case OtherValue(text) => text
  }

  /**
   * The result of Eval on the reply it waited for (chrome.go:258-286): an error object
   * makes it fail; otherwise the value, verbatim when it is a string and rendered
   * otherwise, with the reported type tag.
   */
  function EvalReply(res: Result): (out: (string, string, Option<Error>))
    ensures res.error.Some? ==> out == ("", "", Some(EvaluationError(res.error.value.message)))
    ensures res.error.None? ==> out.2.None? && out.1 == res.result.typeTag
    ensures res.error.None? && res.result.value.StringValue? ==> out.0 == res.result.value.s
    ensures res.error.None? && res.result.value.NilValue? ==> out.0 == "<nil>"
    ensures res.error.None? && res.result.value.OtherValue? ==> out.0 == res.result.value.text
  {
    match res.error
    case Some(e) => ("", "", Some(EvaluationError(e.message)))
    case None => (Render(res.result.value), res.result.typeTag, None)
  }

  /** Adding a key and deleting it again leaves the map without that key. */
  lemma RemoveAfterUpdate<K, V>(m: map<K, V>, k: K, v: V)
    ensures m[k := v] - {k} == m - {k}
  {
    assert (m[k := v] - {k}).Keys == (m - {k}).Keys;
  }

  class Chrome {
    const base: BaseBrowser
    /** Chrome.Id: the id of the next request. */
    var id: int32
    /** Whether `id` has wrapped past the top of the int32 range. */
    ghost var wrapped: bool

    /**
     * Until the counter wraps, every pending id is below the next id, so the next id
     * is never already pending.
     */
    ghost predicate Valid()
      reads this, base
    {
      && base.Valid()
      && (!wrapped ==> 1 <= id && forall n :: n in base.pendingIds ==> n < id)
    }

    /** The struct New builds (chrome.go:32-40). */
    constructor (path: string)
      ensures Valid() && fresh(base) && id == 1 && !wrapped
      ensures base.path == path && base.process.None? && !base.alive && base.ws.None?
      ensures base.pending == map[] && base.bindings == map[] && !base.done && !base.running
    {
      base := new BaseBrowser(path);
      id := 1;
      wrapped := false;
    }

    /** connectWebSocket (chrome.go:94-130): on success `Ws` becomes the new connection. */
    method ConnectWebSocket(env: AttemptEnv) returns (err: Option<Error>)
      requires Valid()
      modifies base`ws
      ensures Valid()
      ensures err == Connect(env).err
      ensures base.ws == if err.None? then Some(Dialled(env)) else old(base.ws)
    {
      var a := Connect(env);
      if a.err.Some? {
        return a.err;
      }
      base.ws := Some(Conn(a.dialled.value, true));
      return None;
    }

    /**
     * connectWebSocketWithRetry (chrome.go:80-91): the run of Retry over the attempt
     * outcomes; `Ws` changes only by the attempt that connects.
     */
    method ConnectWebSocketWithRetry(maxRetries: int, env: nat -> AttemptEnv)
      returns (err: Option<Error>, ghost attempts: nat)
      requires Valid()
      modifies base`ws
      ensures Valid()
      ensures var o := Retry.Run(maxRetries, Outcomes(env));
        && err == Retry.ErrorOf(maxRetries, o)
        && attempts == Retry.AttemptsOf(o)
        && base.ws == if o.Connected? then Some(Dialled(env(o.attempt))) else old(base.ws)
    {
      var i: nat := 0;
      err := None;
      while i < maxRetries
        invariant Valid() && base.ws == old(base.ws)
        invariant Retry.From(maxRetries, Outcomes(env), i, err) == Retry.Run(maxRetries, Outcomes(env))
      {
        err := ConnectWebSocket(env(i));
        if err.None? {
          attempts := i + 1;
          return;
        }
        i := i + 1;
      }
      attempts := i;
      err := Some(RetriesExhausted(maxRetries, err));
    }

    /**
     * The effect of issuing one command: without a connection nothing changes; with
     * one, the current id is consumed (the counter advances by one, wrapping as int32),
     * and a slot registered under the id's decimal text stays in the table exactly when
     * the send succeeded. Until the counter wraps, that key is new: a successful issue
     * adds exactly one entry and a failed send leaves the table as it was. The counter
     * has wrapped once an issue has consumed the id MaxInt32.
     */
    twostate predicate IssueEffect(command: string, params: Params, sendError: Option<string>, new r: Issued)
      reads this, base
    {
      && base.ws == old(base.ws)
      && wrapped == (old(wrapped) || (old(base.ws).Some? && old(id) == MaxInt32))
      && (old(base.ws).None? ==>
            r == Rejected(NotConnected) && id == old(id) && base.pending == old(base.pending))
      && (old(base.ws).Some? ==> id == Inc32(old(id)))
      && (old(base.ws).Some? && sendError.Some? ==>
            && r == Rejected(SendFailed(sendError.value))
            && base.pending == old(base.pending) - {Itoa(old(id))})
      && (old(base.ws).Some? && sendError.None? ==>
            && r.Awaiting? && r.request == Request(old(id), command, params)
            && fresh(r.ch)
            && base.pending == old(base.pending)[Itoa(old(id)) := r.ch])
      && (old(base.ws).Some? && !old(wrapped) ==>
            && Itoa(old(id)) !in old(base.pending)
            && (sendError.Some? ==> base.pending == old(base.pending))
            && (sendError.None? ==> |base.pending| == |old(base.pending)| + 1))
    }

    /**
     * Registers `ch` under the current id and advances the counter
     * (`Pending[idStr] = responseChan; Id++`). Until the counter wraps, the id's key is
     * new, so the table grows by exactly one entry.
     */
    method RegisterNext(ch: ResponseChan) returns (n: int32)
      requires Valid()
      requires ch !in base.pending.Values
      modifies this`id, this`wrapped, base`pending, base`pendingIds
      ensures Valid()
      ensures n == old(id) && id == Inc32(old(id))
      ensures wrapped == (old(wrapped) || old(id) == MaxInt32)
      ensures base.pending == old(base.pending)[Itoa(n) := ch]
      ensures !old(wrapped) ==> Itoa(n) !in old(base.pending) && |base.pending| == |old(base.pending)| + 1
    {
      n := id;
      if !wrapped {
        KeysMember(base.pendingIds, n);
      }
      base.Register(n, ch);
      if id == MaxInt32 {
        wrapped := true;
      }
      id := Inc32(id);
    }

    /** The shared body of Load and Eval up to the wait for the reply. */
    method Issue(command: string, params: Params, sendError: Option<string>) returns (r: Issued)
      requires Valid()
      modifies this`id, this`wrapped, base`pending, base`pendingIds
      ensures Valid()
      ensures IssueEffect(command, params, sendError, r)
    {
      if base.ws.None? {
        return Rejected(NotConnected);
      }
      r := Send(command, params, sendError);
    }

    /** Issue once the connection check has passed: register, advance, send. */
    method Send(command: string, params: Params, sendError: Option<string>) returns (r: Issued)
      requires Valid() && base.ws.Some?
      modifies this`id, this`wrapped, base`pending, base`pendingIds
      ensures Valid()
      ensures id == Inc32(old(id))
      ensures wrapped == (old(wrapped) || old(id) == MaxInt32)
      ensures sendError.Some? ==>
        && r == Rejected(SendFailed(sendError.value))
        && base.pending == old(base.pending) - {Itoa(old(id))}
        && (!old(wrapped) ==> base.pending == old(base.pending))
      ensures sendError.None? ==>
        && r.Awaiting? && r.request == Request(old(id), command, params)
        && fresh(r.ch)
        && base.pending == old(base.pending)[Itoa(old(id)) := r.ch]
        && (!old(wrapped) ==> |base.pending| == |old(base.pending)| + 1)
      ensures !old(wrapped) ==> Itoa(old(id)) !in old(base.pending)
    {
      ghost var before := base.pending;
      var ch := new ResponseChan();
      var n := RegisterNext(ch);
      match sendError
      case Some(cause) =>
        base.Unregister(n);
        assert base.pending == before - {Itoa(n)} by {
          RemoveAfterUpdate(before, Itoa(n), ch);
        }
        assert Itoa(n) !in before ==> base.pending == before;
        r := Rejected(SendFailed(cause));
      case None =>
        r := Awaiting(Request(n, command, params), ch);
    }

    /**
     * Load (chrome.go:173-216) up to the wait for its reply, which LoadReply then
     * interprets. The source takes the session lock at line 174 and releases it only
     * when Load returns, so it still holds the lock while it waits at line 202 (the
     * LockOrder module shows what that does to the dispatcher).
     */
    method Load(url: string, sendError: Option<string>) returns (r: Issued)
      requires Valid()
      modifies this`id, this`wrapped, base`pending, base`pendingIds
      ensures Valid()
      ensures IssueEffect("Page.navigate", Navigate(url), sendError, r)
    {
      r := Issue("Page.navigate", Navigate(url), sendError);
    }

    /**
     * Eval (chrome.go:219-287) up to the wait for its reply, which EvalReply then
     * interprets. Eval releases the session lock before it waits (line 246).
     */
    method Eval(expr: string, sendError: Option<string>) returns (r: Issued)
      requires Valid()
      modifies this`id, this`wrapped, base`pending, base`pendingIds
      ensures Valid()
      ensures IssueEffect("Runtime.evaluate", Evaluate(expr), sendError, r)
    {
      r := Issue("Runtime.evaluate", Evaluate(expr), sendError);
    }

    /** One iteration of Chrome's handleResponse loop (chrome.go:148-170). */
    method HandleResponseStep(recv: Receive) returns (step: Step)
      requires Valid()
      modifies base`pending, base`pendingIds, base`running
      ensures Valid()
      ensures base.RoutedBy(recv, step)
    {
      step := base.HandleResponseStep(recv);
    }
  }

  /**
   * New (chrome.go:25-77) from the point where the executable path is known: build the
   * session, start the process, connect with up to MaxConnectAttempts attempts, kill
   * the session if that fails (ignoring the kill's own error), and otherwise start the
   * dispatcher. `made` is the session built, also when New returns nil.
   */
  method New(path: string, launch: Launch, env: nat -> AttemptEnv,
             closeError: Option<string>, killError: Option<string>, stillRunning: bool)
    returns (c: Chrome?, err: Option<Error>, ghost made: Chrome)
    ensures fresh(made) && fresh(made.base) && made.Valid()
    ensures made.id == 1 && !made.wrapped && made.base.pending == map[] && made.base.bindings == map[]
    ensures launch.LaunchFailed? ==>
      && c == null && err == Some(StartFailed(launch.cause))
      && made.base.process.None? && made.base.ws.None? && !made.base.done
    ensures launch.Launched? ==> made.base.process == Some(Process(launch.pid))
    ensures launch.Launched? ==>
      var o := Retry.Run(MaxConnectAttempts, Outcomes(env));
      if o.Connected? then
        && c == made && err.None?
        && made.base.ws == Some(Dialled(env(o.attempt)))
        && made.base.running && !made.base.done && made.base.alive
      else
        && c == null && err == Retry.ErrorOf(MaxConnectAttempts, o)
        && made.base.done && !made.base.running && made.base.ws.None?
        && made.base.alive == (killError.Some? && stillRunning)
  {
    var chrome := new Chrome(path);
    made := chrome;
    c := null;
    err := chrome.base.Start(launch);
    if err.Some? {
      return;
    }
    ghost var attempts;
    err, attempts := chrome.ConnectWebSocketWithRetry(MaxConnectAttempts, env);
    if err.Some? {
      var _ := chrome.base.Kill(closeError, killError, stillRunning);
      return;
    }
    // chrome.Wg.Add(1); go chrome.handleResponse()
    chrome.base.running := true;
    c := chrome;
  }
}
