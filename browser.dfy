/**
 * The browser-independent session state of browser/browser.go: the reply record,
 * the error texts, and BaseBrowser with its lifecycle (Start, Kill), its binding
 * registry (Bind), its stub commands and the routing of one inbound reply.
 *
 * Each operation is one atomic step. Start, Kill and Bind hold the session's mutex in
 * the source, as does the lookup and delete of a reply's pending entry; the stubs and
 * the receive take no lock. The mutex itself, the goroutines and the blocking channel
 * operations are not modelled. Outcomes that come from the operating system or the
 * network (did the process launch, did the kill fail, is the process still running,
 * did closing the socket fail) are parameters.
 */
module Browser {
  import opened Fmt

  const MinInt32: int := -0x8000_0000
  const MaxInt32: int := 0x7fff_ffff

  /** Go's int32. */
  type int32 = x: int | MinInt32 <= x <= MaxInt32

  /** `x++` on an int32: two's-complement wrap-around at the top of the range. */
  function Inc32(x: int32): (r: int32)
    ensures x < MaxInt32 ==> r == x + 1
    ensures x == MaxInt32 ==> r == MinInt32
  {
    if x == MaxInt32 then MinInt32 else x + 1
  }

  datatype Option<T> = None | Some(value: T)

  /** The optional error object of a reply: `{code, message}`. */
  datatype ErrorObject = ErrorObject(code: int, message: string)

  /**
   * The `value` of an evaluation result after JSON decoding: a string, a missing or
   * null value (Go's nil), or any other JSON value, carried with the text that
   * fmt's `%v` verb prints for it.
   */
  datatype RemoteValue = StringValue(s: string) | NilValue | OtherValue(text: string)

  /** The `result` object of an evaluation reply: `{type, value}`. */
  datatype RemoteObject = RemoteObject(typeTag: string, value: RemoteValue)

  /** browser.Result: one reply frame, correlated to its request by `id`. */
  datatype Result = Result(id: int32, result: RemoteObject, error: Option<ErrorObject>)

  /** The errors the core returns; `Message` gives the text Go formats for each. */
  datatype Error =
    | StartFailed(cause: string)
    | KillFailed(cause: string)
    | NotImplemented(operation: string)
    | BindingExists(name: string)
    | PortNotOpen(browserName: string, port: int)
    | DiscoveryFailed(cause: string)
    | TargetsUndecodable(cause: string)
    | NoTargets
    | DialFailed(cause: string)
    | RetriesExhausted(maxRetries: int, last: Option<Error>)
    | NotConnected
    | SendFailed(cause: string)
    | NavigationError(message: string)
    | EvaluationError(message: string)
    | ProfileRemovalFailed(cause: string)

  /** `%v` of an error value that may be nil. */
  function ErrorText(e: Option<Error>): string
    decreases e, 1
  {
    match e
    case None => "<nil>"
    case Some(err) => Message(err)
  }

  /** The text an error wraps with `%w` or `%v`, for the errors that wrap a string. */
  function Detail(e: Error): Option<string> {
    match e
    case StartFailed(cause) => Some(cause)
    case KillFailed(cause) => Some(cause)
    case DiscoveryFailed(cause) => Some(cause)
    case TargetsUndecodable(cause) => Some(cause)
    case DialFailed(cause) => Some(cause)
    case SendFailed(cause) => Some(cause)
    case NavigationError(message) => Some(message)
    case EvaluationError(message) => Some(message)
    case ProfileRemovalFailed(cause) => Some(cause)
    case _ => None
  }

  /** `t` is a proper suffix of `s`. */
  predicate EndsWith(s: string, t: string) {
    |t| < |s| && s[|s| - |t|..] == t
  }

  /** `prefix` followed by a wrapped cause's text, which ends the message. */
  function Wrap(prefix: string, cause: string): (m: string)
    requires |prefix| > 0
    ensures EndsWith(m, cause)
  {
    prefix + cause
  }

  /**
   * The `fmt.Errorf` text of each error. It is never empty, and an error that wraps a
   * cause ends with that cause's text, so the cause can be read back off the message.
   */
  function Message(e: Error): (m: string)
    ensures |m| > 0
    decreases e, 0
  {
    match e
    case StartFailed(cause) => Wrap("failed to start browser: ", cause)
    case KillFailed(cause) => Wrap("failed to kill browser process: ", cause)
    case NotImplemented(op) => op + " not implemented"
    case BindingExists(name) => "binding " + name + " already exists"
    case PortNotOpen(browserName, port) =>
      browserName + " remote debugging port " + Itoa(port) + " is not open"
    case DiscoveryFailed(cause) => Wrap("failed to get WebSocket debugger URL: ", cause)
    case TargetsUndecodable(cause) => Wrap("failed to decode JSON response: ", cause)
    case NoTargets => "no WebSocket targets found"
    case DialFailed(cause) => Wrap("failed to dial WebSocket: ", cause)
    case RetriesExhausted(n, last) =>
      "failed to connect to WebSocket after " + Itoa(n) + " attempts: " + ErrorText(last)
    case NotConnected => "WebSocket connection is not established"
    case SendFailed(cause) => Wrap("failed to send WebSocket message: ", cause)
    case NavigationError(message) => Wrap("navigation error: ", message)
    case EvaluationError(message) => Wrap("evaluation error: ", message)
    case ProfileRemovalFailed(cause) => Wrap("failed to delete Firefox profile directory: ", cause)
  }

  /** An error that wraps a cause ends its text with that cause, so it can be read back. */
  lemma {:induction false} MessageEndsWithDetail(e: Error)
    ensures Detail(e).Some? ==> EndsWith(Message(e), Detail(e).value)
  {
    match e
    case StartFailed(_) =>
    case KillFailed(_) =>
    case DiscoveryFailed(_) =>
    case TargetsUndecodable(_) =>
    case DialFailed(_) =>
    case SendFailed(_) =>
    case NavigationError(_) =>
    case EvaluationError(_) =>
    case ProfileRemovalFailed(_) =>
    case _ =>
  }

  /** `t` occurs in `s` at position `at`. */
  predicate OccursAt(s: string, t: string, at: nat) {
    at + |t| <= |s| && s[at..at + |t|] == t
  }

  /**
   * The error of an exhausted retry names the attempt count and the last attempt's
   * error (or `<nil>` when no attempt was made), at fixed positions of its text.
   */
  lemma RetriesExhaustedMessage(n: int, last: Option<Error>)
    ensures var m := Message(RetriesExhausted(n, last));
      OccursAt(m, Itoa(n), 37) && OccursAt(m, ErrorText(last), 37 + |Itoa(n)| + 11)
  {
    var head := "failed to connect to WebSocket after ";
    var mid := " attempts: ";
    assert |head| == 37 && |mid| == 11;
    var m := Message(RetriesExhausted(n, last));
    assert m == head + Itoa(n) + mid + ErrorText(last);
    assert m[37..37 + |Itoa(n)|] == Itoa(n);
  }

  /** The OS process handle (`Cmd.Process`). */
  datatype Process = Process(pid: int)

  /** What `Cmd.Start` did: launched a process, or failed with an error. */
  datatype Launch = Launched(pid: int) | LaunchFailed(cause: string)

  /** A DevTools websocket (`*websocket.Conn`): the URL it dialled and whether it is still open. */
  datatype Conn = Conn(url: string, open: bool)

  /** A registered binding callback; its behaviour is outside the model. */
  datatype BindingFunc = BindingFunc(tag: nat)

  /** One pending reply slot (`make(chan interface{})`); only its identity matters. */
  class ResponseChan {
    constructor () {}
  }

  /** What one `websocket.JSON.Receive` produced. */
  datatype Receive = Received(res: Result) | ReceiveFailed(cause: string)

  /** What one iteration of the `handleResponse` loop did. */
  datatype Step =
    | Exited                                   // the Done channel was closed: the loop returns
    | Skipped                                  // the receive failed: the loop continues
    | Delivered(ch: ResponseChan, res: Result) // the reply went to the waiting slot
    | Dropped(res: Result)                     // no slot waits for this id

  /** The pending-table keys of a set of ids: their decimal texts. */
  function Keys(ids: set<int32>): (ks: set<string>)
    ensures forall n :: n in ids ==> Itoa(n) in ks
  {
    set n | n in ids :: Itoa(n)
  }

  lemma KeysAdd(ids: set<int32>, n: int32)
    ensures Keys(ids + {n}) == Keys(ids) + {Itoa(n)}
  {
  }

  lemma KeysRemove(ids: set<int32>, n: int32)
    ensures Keys(ids - {n}) == Keys(ids) - {Itoa(n)}
  {
    forall m | m in ids - {n} ensures Itoa(m) != Itoa(n) {
      ItoaInjective(m, n);
    }
  }

  /** The key of `n` is in the table exactly when `n` is one of its ids. */
  lemma KeysMember(ids: set<int32>, n: int32)
    ensures Itoa(n) in Keys(ids) <==> n in ids
  {
    if Itoa(n) in Keys(ids) {
      var m :| m in ids && Itoa(m) == Itoa(n);
      ItoaInjective(m, n);
    }
  }

  /** No two keys of the table share a slot. */
  ghost predicate Injective(pending: map<string, ResponseChan>) {
    forall k1, k2 :: k1 in pending && k2 in pending && k1 != k2 ==> pending[k1] != pending[k2]
  }

  /**
   * The verdict of Kill (browser.go:83-94): with no process there is nothing to kill;
   * a failed kill is forgiven when the process is no longer running.
   */
  function KillVerdict(hasProcess: bool, killError: Option<string>, stillRunning: bool): (r: Option<Error>)
    ensures r.Some? <==> hasProcess && killError.Some? && stillRunning
    ensures r.Some? ==> r == Some(KillFailed(killError.value))
  {
    if hasProcess && killError.Some? && stillRunning then Some(KillFailed(killError.value)) else None
  }

  class BaseBrowser {
    var path: string
    /** Cmd.Process: set once the process is launched. */
    var process: Option<Process>
    /** Whether the launched process is running. */
    var alive: bool
    var ws: Option<Conn>
    /** BaseBrowser.Id: shadowed by the Chrome and Firefox counters and never used. */
    var id: int32
    var pending: map<string, ResponseChan>
    var bindings: map<string, BindingFunc>
    /** Whether the Done channel has been closed. */
    var done: bool
    /** The WaitGroup's count: whether the handleResponse goroutine runs. */
    var running: bool

    /** How many times Done has been closed (a second close would panic in Go). */
    ghost var doneCloses: nat
    /** The ids whose decimal texts are the keys of `pending`. */
    ghost var pendingIds: set<int32>

    ghost predicate Valid()
      reads this
    {
      && doneCloses == (if done then 1 else 0)
      && pending.Keys == Keys(pendingIds)
      && Injective(pending)
      && (process.None? ==> !alive)
    }

    /** The zero state that `New` builds: empty tables, an open Done channel. */
    constructor (path: string)
      ensures Valid()
      ensures this.path == path && process.None? && !alive && ws.None?
      ensures id == 0 && pending == map[] && bindings == map[] && !done && !running
    {
      this.path := path;
      process, alive := None, false;
      ws := None;
      id := 0;
      pending, bindings := map[], map[];
      done, running := false, false;
      doneCloses := 0;
      pendingIds := {};
    }

    /** Start (browser.go:44-59): launches the process unless one is already recorded. */
    method Start(launch: Launch) returns (err: Option<Error>)
      requires Valid()
      modifies this`process, this`alive
      ensures Valid()
      ensures old(process).Some? ==> err.None? && process == old(process) && alive == old(alive)
      ensures old(process).None? && launch.LaunchFailed? ==>
        err == Some(StartFailed(launch.cause)) && process.None? && !alive
      ensures old(process).None? && launch.Launched? ==>
        err.None? && process == Some(Process(launch.pid)) && alive
    {
      if process.Some? {
        return None;
      }
      match launch
      case LaunchFailed(cause) =>
        return Some(StartFailed(cause));
      case Launched(pid) =>
        process, alive := Some(Process(pid)), true;
        return None;
    }

    /**
     * The state Kill leaves: Done is closed, and has been closed exactly once however
     * often Kill ran; the socket, if any, is closed but still recorded; the dispatcher
     * has exited; the process is dead unless the kill failed (`err`) while it ran.
     */
    twostate predicate KillEffect(err: Option<Error>)
      reads this
    {
      && done && doneCloses == 1
      && (old(done) ==> doneCloses == old(doneCloses))
      && ws == (if old(ws).Some? then Some(old(ws).value.(open := false)) else None)
      && !running
      && alive == (old(alive) && err.Some?)
    }

    /**
     * Kill (browser.go:61-95). Closes Done unless it is already closed, closes the
     * socket when there is one (a close error is only printed, so `closeError` has no
     * effect), waits for the dispatcher to exit, and kills the process.
     */
    method Kill(closeError: Option<string>, killError: Option<string>, stillRunning: bool)
      returns (err: Option<Error>)
      requires Valid()
      modifies this`done, this`doneCloses, this`ws, this`running, this`alive
      ensures Valid()
      ensures err == KillVerdict(old(process).Some?, killError, stillRunning)
      ensures KillEffect(err)
    {
      if !done {
        done := true;
        doneCloses := doneCloses + 1;
      }
      if ws.Some? {
        ws := Some(ws.value.(open := false));
      }
      // b.Wg.Wait(): the dispatcher observes Done and returns.
      running := false;
      if process.Some? {
        if killError.Some? {
          if !stillRunning {
            alive := false;
            return None;
          }
          return Some(KillFailed(killError.value));
        }
        alive := false;
      }
      return None;
    }

    /** The base Eval (browser.go:97-100): every browser must override it. */
    method Eval(expr: string) returns (value: string, typeTag: string, err: Option<Error>)
      ensures err == Some(NotImplemented("Eval")) && value == "" && typeTag == ""
    {
      return "", "", Some(NotImplemented("Eval"));
    }

    /** The base Load (browser.go:102-105): every browser must override it. */
    method Load(url: string) returns (err: Option<Error>)
      ensures err == Some(NotImplemented("Load"))
    {
      return Some(NotImplemented("Load"));
    }

    /** Bind (browser.go:107-115): insert-if-absent on the name -> callback table. */
    method Bind(name: string, f: BindingFunc) returns (err: Option<Error>)
      requires Valid()
      modifies this`bindings
      ensures Valid()
      ensures name in old(bindings) ==> err == Some(BindingExists(name)) && bindings == old(bindings)
      ensures name !in old(bindings) ==>
        err.None? && bindings == old(bindings)[name := f] && |bindings| == |old(bindings)| + 1
    {
      if name in bindings {
        return Some(BindingExists(name));
      }
      bindings := bindings[name := f];
      return None;
    }

    /**
     * Adds a slot for request `n` to the pending table; the id is recorded in
     * `pendingIds` so that the table's keys stay the texts of its ids.
     */
    method Register(n: int32, ch: ResponseChan)
      requires Valid()
      requires ch !in pending.Values
      modifies this`pending, this`pendingIds
      ensures Valid()
      ensures pending == old(pending)[Itoa(n) := ch] && pendingIds == old(pendingIds) + {n}
    {
      KeysAdd(pendingIds, n);
      pending := pending[Itoa(n) := ch];
      pendingIds := pendingIds + {n};
    }

    /** Removes the slot of request `n` (`delete(Pending, idStr)`). */
    method Unregister(n: int32)
      requires Valid()
      modifies this`pending, this`pendingIds
      ensures Valid()
      ensures pending == old(pending) - {Itoa(n)} && pendingIds == old(pendingIds) - {n}
    {
      KeysRemove(pendingIds, n);
      pending := pending - {Itoa(n)};
      pendingIds := pendingIds - {n};
    }

    /**
     * The effect of one dispatcher iteration on the pending table: on a closed Done
     * the loop exits and nothing else changes; a failed receive changes nothing; a
     * reply whose id is pending is delivered to that id's slot and only that entry is
     * removed; a reply with an unknown id is dropped and the table is unchanged.
     */
    twostate predicate RoutedBy(recv: Receive, new step: Step)
      reads this
    {
      && pendingIds <= old(pendingIds)
      && (old(done) ==> step == Exited && !running && pending == old(pending))
      && (!old(done) ==> running == old(running))
      && (!old(done) && recv.ReceiveFailed? ==> step == Skipped && pending == old(pending))
      && (!old(done) && recv.Received? ==>
            var key := Itoa(recv.res.id);
            if key in old(pending) then
              && step == Delivered(old(pending)[key], recv.res)
              && pending == old(pending) - {key}
              && recv.res.id in old(pendingIds)
            else
              step == Dropped(recv.res) && pending == old(pending))
    }

    /**
     * One iteration of the handleResponse loop, shared word for word by
     * chrome.go:148-170 and firefox.go:195-217: exit once Done is closed; skip a failed
     * receive; otherwise hand the reply to the slot waiting on its id, if any, and
     * remove that slot.
     */
    method HandleResponseStep(recv: Receive) returns (step: Step)
      requires Valid()
      modifies this`pending, this`pendingIds, this`running
      ensures Valid()
      ensures RoutedBy(recv, step)
    {
      if done {
        running := false;
        return Exited;
      }
      match recv
      case ReceiveFailed(_) =>
        return Skipped;
      case Received(res) =>
        var key := Itoa(res.id);
        if key in pending {
          KeysMember(pendingIds, res.id);
          var ch := pending[key];
          Unregister(res.id);
          return Delivered(ch, res);
        }
        return Dropped(res);
    }
  }

  /**
   * A reply reaches only the caller that registered its id: when two ids' entries in
   * a pending table share a slot, the ids are equal.
   */
  lemma DeliveredToOwner(pending: map<string, ResponseChan>, a: int32, b: int32)
    requires Injective(pending)
    requires Itoa(a) in pending && Itoa(b) in pending
    requires pending[Itoa(a)] == pending[Itoa(b)]
    ensures a == b
  {
    ItoaInjective(a, b);
  }
}
