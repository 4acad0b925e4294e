/**
 * browser/firefox/firefox.go: the Firefox session. Like Chrome it embeds BaseBrowser
 * (the `base` object) and declares its own counter, which it never uses: Firefox's
 * Load and Eval are stubs, its connectWebSocket only checks the debugging port and never
 * sets the connection, so nothing is ever registered in the pending table.
 */
module FirefoxBrowser {
  import opened Browser
  import Retry

  /** The debugging port Firefox is launched with and polled on. */
  const DebugPort: int := 9223

  /** New's retry budget (`connectWebSocketWithRetry(10, ...)`). */
  const MaxConnectAttempts: int := 10

  /** The attempt outcomes when attempt i finds the port open exactly when `portOpen(i)`. */
  function Outcomes(portOpen: nat -> bool): nat -> Option<Error> {
    (i: nat) => if portOpen(i) then None else Some(PortNotOpen("Firefox", DebugPort))
  }

  class Firefox {
    const base: BaseBrowser
    /** Firefox.Id: initialised to 1 and never read. */
    var id: int32
    /** The temporary profile directory the process runs with. */
    const profile: string
    /** Whether the profile directory has been removed. */
    var profileRemoved: bool

    /** No connection is ever recorded and no request is ever pending. */
    ghost predicate Valid()
      reads this, base
    {
      base.Valid() && base.ws.None? && base.pending == map[] && base.pendingIds == {}
    }

    /** The struct New builds (firefox.go:33-42). */
    constructor (path: string, profile: string)
      ensures Valid() && fresh(base) && id == 1 && this.profile == profile && !profileRemoved
      ensures base.path == path && base.process.None? && !base.alive
      ensures base.bindings == map[] && !base.done && !base.running
    {
      base := new BaseBrowser(path);
      id := 1;
      this.profile := profile;
      profileRemoved := false;
    }

    /**
     * Kill (firefox.go:139-153): the base Kill first; only when it succeeds is the
     * profile removed, and a failed removal is the error.
     */
    method Kill(closeError: Option<string>, killError: Option<string>, stillRunning: bool,
                removeError: Option<string>)
      returns (err: Option<Error>)
      requires Valid()
      modifies base`done, base`doneCloses, base`ws, base`running, base`alive, this`profileRemoved
      ensures Valid()
      ensures var baseErr := KillVerdict(old(base.process).Some?, killError, stillRunning);
        && base.KillEffect(baseErr)
        && err == (if baseErr.Some? then baseErr
                   else if removeError.Some? then Some(ProfileRemovalFailed(removeError.value))
                   else None)
        && profileRemoved == (old(profileRemoved) || (baseErr.None? && removeError.None?))
    {
      err := base.Kill(closeError, killError, stillRunning);
      if err.Some? {
        return;
      }
      match removeError
      case Some(cause) =>
        return Some(ProfileRemovalFailed(cause));
      case None =>
        profileRemoved := true;
        return None;
    }

    /** connectWebSocket (firefox.go:170-177): only the port check; no state changes. */
    method ConnectWebSocket(portOpen: bool) returns (err: Option<Error>)
      ensures err.None? <==> portOpen
      ensures !portOpen ==> err == Some(PortNotOpen("Firefox", DebugPort))
    {
      if !portOpen {
        return Some(PortNotOpen("Firefox", DebugPort));
      }
      return None;
    }

    /**
     * connectWebSocketWithRetry (firefox.go:156-167): the run of Retry over the port
     * checks; no state changes, whatever the outcome.
     */
    method ConnectWebSocketWithRetry(maxRetries: int, portOpen: nat -> bool)
      returns (err: Option<Error>, ghost attempts: nat)
      ensures err == Retry.ErrorOf(maxRetries, Retry.Run(maxRetries, Outcomes(portOpen)))
      ensures attempts == Retry.AttemptsOf(Retry.Run(maxRetries, Outcomes(portOpen)))
    {
      var i: nat := 0;
      err := None;
      while i < maxRetries
        invariant Retry.From(maxRetries, Outcomes(portOpen), i, err) == Retry.Run(maxRetries, Outcomes(portOpen))
      {
        err := ConnectWebSocket(portOpen(i));
        if err.None? {
          attempts := i + 1;
          return;
        }
        i := i + 1;
      }
      attempts := i;
      err := Some(RetriesExhausted(maxRetries, err));
    }

    /**
     * One iteration of Firefox's handleResponse loop (firefox.go:195-217). With nothing
     * ever pending, a received reply is always dropped.
     */
    method HandleResponseStep(recv: Receive) returns (step: Step)
      requires Valid()
      modifies base`pending, base`pendingIds, base`running
      ensures Valid()
      ensures base.RoutedBy(recv, step)
      ensures !step.Delivered?
    {
      step := base.HandleResponseStep(recv);
    }

    /** Load (firefox.go:220-222): a stub that succeeds. */
    method Load(url: string) returns (err: Option<Error>)
      ensures err.None?
    {
      return None;
    }

    /** Eval (firefox.go:225-227): a stub that returns two empty strings and no error. */
    method Eval(expr: string) returns (value: string, typeTag: string, err: Option<Error>)
      ensures value == "" && typeTag == "" && err.None?
    {
      return "", "", None;
    }
  }

  /**
   * New (firefox.go:24-84) from the point where the executable path and the prepared
   * profile directory are known: start the process, run the port-check retry, kill the
   * session if it fails (ignoring the kill's own error), otherwise start the dispatcher.
   * `made` is the session built, also when New returns nil.
   */
  method New(path: string, profile: string, launch: Launch, portOpen: nat -> bool,
             closeError: Option<string>, killError: Option<string>, stillRunning: bool,
             removeError: Option<string>)
    returns (f: Firefox?, err: Option<Error>, ghost made: Firefox)
    ensures fresh(made) && fresh(made.base) && made.Valid() && made.profile == profile
    ensures launch.LaunchFailed? ==>
      && f == null && err == Some(StartFailed(launch.cause))
      && made.base.process.None? && !made.base.done && !made.profileRemoved
    ensures launch.Launched? ==> made.base.process == Some(Process(launch.pid))
    ensures launch.Launched? ==>
      var o := Retry.Run(MaxConnectAttempts, Outcomes(portOpen));
      if o.Connected? then
        && f == made && err.None?
        && made.base.running && !made.base.done && made.base.alive && !made.profileRemoved
      else
        && f == null && err == Retry.ErrorOf(MaxConnectAttempts, o)
        && made.base.done && !made.base.running
        && made.base.alive == (killError.Some? && stillRunning)
        && made.profileRemoved == (!(killError.Some? && stillRunning) && removeError.None?)
  {
    var firefox := new Firefox(path, profile);
    made := firefox;
    f := null;
    err := firefox.base.Start(launch);
    if err.Some? {
      return;
    }
    ghost var attempts;
    err, attempts := firefox.ConnectWebSocketWithRetry(MaxConnectAttempts, portOpen);
    if err.Some? {
      var _ := firefox.Kill(closeError, killError, stillRunning, removeError);
      return;
    }
    // firefox.Wg.Add(1); go firefox.handleResponse()
    firefox.base.running := true;
    f := firefox;
  }
}
