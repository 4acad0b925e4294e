# Session bookkeeping of a DevTools browser driver, in Dafny

This project models the session state of a Go client that drives Chrome and Firefox
through their remote-debugging protocols (package `browser` with its `chrome` and
`firefox` subpackages). Each operation is one atomic step over the session's fields.
Of the modelled operations, these hold the session mutex in the source: `Start`, `Kill`,
`Bind`, Chrome's `Load`/`Eval` issuance, and the dispatcher's lookup and delete of a pending
entry (browser/chrome/chrome.go:162-167). These take no lock: `connectWebSocket` and its
retry, the dispatcher's receive, Firefox's profile removal after the base `Kill`, and the
stub `Load`/`Eval`. Everything the operating system or the network decides is an
explicit input:

- did the process launch;
- did the port open;
- what did discovery list;
- did dialling or the send fail;
- did the kill fail, and is the process still running;
- did removing the profile fail;
- what did the receive produce.

Modules, following the source files:

- `Fmt` (fmt.dfy): `fmt.Sprintf("%d", n)` as `Itoa`, with a parser that inverts it. The
  pending table is keyed by these texts, so `Itoa` must be injective, and that is proved.
- `Browser` (browser.dfy, for browser/browser.go):
  - the reply record `Result` and the error values with their Go texts;
  - the class `BaseBrowser`: process handle, connection, pending table, bindings, the Done
    channel and the dispatcher's WaitGroup;
  - `Start`, `Kill`, `Bind`, the stub `Eval`/`Load`, and one iteration of `handleResponse`,
    which is identical in chrome.go and firefox.go up to the receiver name.
- `Retry` (retry.dfy): what `connectWebSocketWithRetry` decides. The loop is the same in
  both browsers. The outcome of each attempt is an input.
- `ChromeBrowser` (chrome.dfy, for browser/chrome/chrome.go):
  - target selection and dialling (`Connect`);
  - the retry loop over it;
  - id issuance and the pending table for `Load`/`Eval`;
  - the interpretation of the reply each one waits for (`LoadReply`, `EvalReply`);
  - the dispatcher step;
  - `New`.
- `FirefoxBrowser` (firefox.dfy, for browser/firefox/firefox.go): the `Kill` override, the
  port-only connect and its retry, the dispatcher step, the stub `Load`/`Eval`, and `New`.
- `LockOrder` (lockorder.dfy): the order in which `Load`, `Eval` and the dispatcher take the
  session mutex. It shows that `Load` as written deadlocks (see Findings).

Go's struct embedding is modelled as composition. `Chrome` and `Firefox` each own a
`base: BaseBrowser`. Each also has its own `id` field, which shadows `BaseBrowser.Id` as in
the source; the base `Id` stays 0 and is never used.

The request id is an `int32`. `Inc32` models its wrap-around explicitly. The invariant
"every pending id is below the next id" holds only until the first wrap, which is why
`Chrome.Valid` tracks a ghost `wrapped` flag. After a wrap, a new id can collide with a
pending one, and the source then overwrites that entry. The model states this precisely:
`pending[key := ch]`, and on a failed send `pending - {key}`.

Two things the code does not do:

- `Kill` does not empty the pending table. Waiters left in it are never released.
- `Kill` does not reset `Ws`. The connection is closed but stays recorded.

## Model

| member | source | states |
|---|---|---|
| `Fmt.Itoa` | browser/chrome/chrome.go:189 | `%d` of an id (also at chrome.go:161 and 234): never empty, starting with `-` exactly when the id is negative; `ParseItoa` inverts it for every int, int32 minimum included |
| `Fmt.ParseItoa` | browser/chrome/chrome.go:189 | parsing the decimal key of an id gives back the id |
| `Fmt.ItoaInjective` | browser/chrome/chrome.go:161-163 | two ids have the same decimal key iff they are equal, so replies are looked up under their request's key and no other |
| `Browser.Inc32` | browser/chrome/chrome.go:192 | `Id++` adds one below the int32 maximum and wraps to the minimum at it |
| `Browser.RetriesExhaustedMessage` | browser/chrome/chrome.go:90 | the exhausted-retry error text contains the decimal attempt count and the last error's text (`<nil>` when none) at fixed positions |
| `Browser.Message` | browser/browser.go:54-111 | the `fmt.Errorf` text of each error (browser.go:54, 90, 99, 104, 111; chrome.go:90, 97, 103, 112, 116, 124, 178, 197, 212, 259; firefox.go:149, 173), never empty |
| `Browser.MessageEndsWithDetail` | browser/browser.go:54 | every error that wraps a cause with `%w` or `%s` (browser.go:54, 90; chrome.go:103, 112, 124, 197, 212, 259; firefox.go:149) ends its text with that cause, so the cause can be read back off the message |
| `Browser.KillVerdict` | browser/browser.go:83-94 | Kill fails iff there is a process, killing it failed and it is still running; the error wraps the kill error |
| `Browser.BaseBrowser.Start` | browser/browser.go:44-59 | with a process already recorded: success, handle unchanged, nothing launched; otherwise a failed launch returns the start error and records no process, a successful one records the new process as running |
| `Browser.BaseBrowser.Kill` | browser/browser.go:61-95 | Done closed, exactly once over any number of calls; the socket closed only if present, whatever the close error; the dispatcher stopped; the result is `KillVerdict`; the process dead unless that verdict is an error |
| `Browser.BaseBrowser.Eval` | browser/browser.go:97-100 | always ("", "", "Eval not implemented"), no state change |
| `Browser.BaseBrowser.Load` | browser/browser.go:102-105 | always "Load not implemented", no state change |
| `Browser.BaseBrowser.Bind` | browser/browser.go:107-115 | an existing name gives "binding exists" and leaves the table unchanged; a new name adds exactly that entry |
| `Browser.BaseBrowser.HandleResponseStep` | browser/chrome/chrome.go:148-170 | Done closed: exit, nothing else changes; a failed receive: continue, table unchanged; a reply whose key is pending goes to that slot and only that entry is removed; an unknown id is dropped, table unchanged |
| `Browser.DeliveredToOwner` | browser/chrome/chrome.go:161-166 | when two ids' entries share a slot the ids are equal: each waiter receives only the reply with its own id |
| `Retry.From` | browser/chrome/chrome.go:80-90 | the retry loop's decision from attempt i on (the same loop at firefox.go:156-166): a connection is always at an attempt below maxRetries, not before i, whose outcome is success |
| `Retry.FirstSuccess` | browser/chrome/chrome.go:82-86 | if attempt k is the first to succeed and k < maxRetries, the run succeeds after exactly k + 1 attempts |
| `Retry.AllFail` | browser/chrome/chrome.go:80-90 | if every attempt fails, exactly max(maxRetries, 0) attempts are made and the error names maxRetries and the last error, or nil when maxRetries <= 0 |
| `Retry.RunIsFirstSuccess` | browser/chrome/chrome.go:80-90 | conversely, success happens only at the first succeeding attempt, failure only when all failed, never more than maxRetries attempts |
| `ChromeBrowser.Connect` | browser/chrome/chrome.go:94-130 | a closed port fails before discovery; a failed discovery request, an undecodable list and a failed dial each give their own error, wrapping the cause; an empty target list fails without dialling; the URL dialled is always the first target's; success iff a target exists and the dial succeeds |
| `ChromeBrowser.LoadReply` | browser/chrome/chrome.go:211-215 | Load fails iff the reply carries an error object, with its message |
| `ChromeBrowser.EvalReply` | browser/chrome/chrome.go:258-286 | an error object fails Eval; otherwise a string value is returned verbatim, nil as `<nil>`, any other value as its rendered text, paired with the type tag |
| `ChromeBrowser.Chrome.constructor` | browser/chrome/chrome.go:32-40 | empty pending and binding tables, open Done, no process, no connection, id 1 |
| `ChromeBrowser.Chrome.ConnectWebSocket` | browser/chrome/chrome.go:94-130 | the error is `Connect`'s; on success `Ws` becomes an open connection to the first target, otherwise it is unchanged |
| `ChromeBrowser.Chrome.ConnectWebSocketWithRetry` | browser/chrome/chrome.go:80-91 | result and attempt count are those of the `Retry` run over the attempts' outcomes; `Ws` is set only by the succeeding attempt |
| `ChromeBrowser.Chrome.RegisterNext` | browser/chrome/chrome.go:189-192 | registers the slot under the current id's key and advances the id by one (int32); the counter counts as wrapped once the id MaxInt32 is consumed; before that the key is new and the table grows by exactly one |
| `ChromeBrowser.Chrome.Issue` | browser/chrome/chrome.go:177-198 | no connection: "not established", no id consumed, table unchanged; otherwise the id advances, a failed send removes the just-added slot (table as before until a wrap), a successful one leaves exactly that slot with the request carrying the old id; the counter counts as wrapped exactly once an issue has consumed MaxInt32, so these guarantees carry over from call to call until then |
| `ChromeBrowser.Chrome.Load` | browser/chrome/chrome.go:173-202 | `Issue` for `Page.navigate` with the URL |
| `ChromeBrowser.Chrome.Eval` | browser/chrome/chrome.go:219-249 | `Issue` for `Runtime.evaluate` with the expression |
| `ChromeBrowser.Chrome.HandleResponseStep` | browser/chrome/chrome.go:148-170 | the routing step on Chrome's session, which keeps the pending ids below the next id |
| `ChromeBrowser.New` | browser/chrome/chrome.go:25-77 | a failed start returns its error before any connect; a failed connect kills the session (Done closed, process killed unless the kill failed while it ran) and returns the connect error; otherwise the connected session is returned with its dispatcher running; the session starts at id 1, not wrapped |
| `FirefoxBrowser.Firefox.constructor` | browser/firefox/firefox.go:33-42 | empty tables, open Done, id 1, the given profile, not yet removed |
| `FirefoxBrowser.Firefox.Kill` | browser/firefox/firefox.go:139-153 | the base Kill runs first; its error is returned and the profile kept; otherwise a removal error is returned; the profile counts as removed only when both succeed |
| `FirefoxBrowser.Firefox.ConnectWebSocket` | browser/firefox/firefox.go:170-177 | succeeds iff the port is open, otherwise "Firefox remote debugging port 9223 is not open"; no state change |
| `FirefoxBrowser.Firefox.ConnectWebSocketWithRetry` | browser/firefox/firefox.go:156-167 | result and attempt count are those of the `Retry` run over the port checks; no state change |
| `FirefoxBrowser.Firefox.HandleResponseStep` | browser/firefox/firefox.go:195-217 | the shared routing step; since Firefox never registers a slot, a reply is never delivered |
| `FirefoxBrowser.Firefox.Load` | browser/firefox/firefox.go:220-222 | always succeeds, no state change |
| `FirefoxBrowser.Firefox.Eval` | browser/firefox/firefox.go:225-227 | always ("", "", nil), no state change |
| `FirefoxBrowser.New` | browser/firefox/firefox.go:24-84 | as Chrome's New with the port-check retry; a failed connect runs Firefox's Kill, so the profile is removed only when kill and removal succeed |
| `LockOrder.LoadAsWrittenNeverReturns` | browser/chrome/chrome.go:173-202 | under every interleaving with the dispatcher, Load as written never returns once its send succeeds (the no-connection and send-failure returns are the other paths) |
| `LockOrder.LoadAsWrittenDeadlocks` | browser/chrome/chrome.go:174-202 | after Load sends and the dispatcher receives the reply, neither can move and Load has not returned |
| `LockOrder.ReleasedLoadNeverStuck` | browser/chrome/chrome.go:219-249 | with the lock released before the wait (Eval's order), every reachable state has returned or can move |
| `LockOrder.ReleasedLoadReturns` | browser/chrome/chrome.go:219-249 | with that order, from every state an interleaving can reach, three caller turns, four dispatcher turns and one more caller turn (`CallerThenDispatcher`) bring Load to its return |

## Findings

| source | as written | input that shows it | evidently intended | confidence | as-written member | corrected member |
|---|---|---|---|---|---|---|
| browser/chrome/chrome.go:174-202 | `Load` takes the session lock and holds it (deferred unlock) while it waits for its reply; the dispatcher must take the same lock to deliver that reply | any `Load` whose send succeeds: the dispatcher receives the reply and blocks on the lock, and `Load` waits forever | release the lock before waiting, as `Eval` does at line 246 | high; not executed | `LockOrder.LoadAsWrittenDeadlocks` | `LockOrder.ReleasedLoadNeverStuck` |

`ChromeBrowser.Chrome.Load` models only the atomic issuance step. The lock is released
after it, in the corrected order; the reply is then interpreted by `LoadReply`.

## Left out

- The blocking wait for a reply: Load and Eval are modelled as the issuance step plus a pure interpretation of the delivered reply (`LoadReply`, `EvalReply`); the `unexpected response type` branch cannot happen because only `Result` values are delivered.
- Goroutines, `sync.Mutex` and `WaitGroup`: every operation is one atomic step. `Kill`'s `Wg.Wait()` is modelled as returning: the dispatcher is marked stopped.
- `Browser.BaseBrowser.Kill`: assumes the dispatcher does exit. The model does not show the case where the dispatcher has just received a reply and waits for the lock that `Kill` holds.
- Network I/O: `websocket.Dial`, `JSON.Send`, `JSON.Receive` and the HTTP discovery request. Their outcomes are inputs (`AttemptEnv`, `sendError`, `Receive`).
- `waitForPort`: it polls a TCP port against the wall clock, so it is a boolean input per attempt. The delay between retries is not modelled.
- The JSON marshal/unmarshal round trip in Eval (chrome.go:271-278) and its two error paths: the decoded value is a `RemoteValue`, and a non-string value carries the text `%v` prints for it.
- `FindPath`: it reads `MAJORCA_BROWSER` and other environment variables and probes install paths. New takes the path as a parameter.
- `New`'s `os.Setenv("MAJORCA_BROWSER", path)` (browser/chrome/chrome.go:30, browser/firefox/firefox.go:29): a process-wide effect outside the session state.
- Firefox profile creation and `customizeProfile` are filesystem I/O. New takes the prepared profile path, and its two early error returns are not modelled. Removal is reduced to a success-or-failure input.
- `exec.Command`, the argument lists, stdout wiring and `isProcessRunning`: process control is reduced to launch, kill and still-running inputs.
- FirefoxBrowser.Firefox.HandleResponseStep: Firefox's dispatcher receives on a nil connection (browser/firefox/firefox.go:203), since Firefox never sets `Ws`. The websocket library's receive is not part of this model. It most likely dereferences that nil connection and panics, ending the process on the first iteration after a successful Firefox `New`; that consequence is not established here. The step takes the receive outcome as an input.
- The binding callbacks' behaviour: a callback is an opaque value.
- Logging (`fmt.Printf`) and the two test files.
