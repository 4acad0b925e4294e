/**
 * The order in which a command and the dispatcher take the session mutex
 * (browser/chrome/chrome.go). Load takes the lock at line 174 and releases it through
 * `defer` only when it returns, after its wait for the reply at line 202; Eval releases
 * it at line 246 before waiting at line 249. The dispatcher receives a reply at line
 * 156, then takes the same lock at line 162 to hand it over.
 *
 * Each party runs a straight-line program of actions; a schedule says which party
 * tries its next action, and an action that cannot proceed (a lock someone holds, a
 * reply not yet sent or not yet delivered) leaves the state as it is. The model shows
 * that Load as written, once its send succeeds, can never return, and that with Eval's
 * order (the lock released before the wait) the pair never gets stuck and Load returns.
 */
module LockOrder {
  import opened Browser

  datatype Party = Caller | Dispatcher

  datatype Action =
    | Lock             // take the session mutex; waits while anyone holds it
    | Unlock
    | RegisterAndSend  // add the pending slot and send the request
    | AwaitReply       // block on the slot until the dispatcher delivers the reply
    | ReceiveReply     // block until the browser answers, which needs the request sent
    | DeliverReply     // hand the reply to the pending slot

  /**
   * Load as written, on the path where the connection exists and the send succeeds:
   * chrome.go:174-175, 189-194, 198-202, and the deferred unlock. Its two early returns
   * (no connection at 177-179, a failed send at 195-197) do return and are not this
   * program.
   */
  const LoadAsWritten: seq<Action> := [Lock, RegisterAndSend, AwaitReply, Unlock]

  /** Eval's order, chrome.go:220, 234-246, 249: the lock is released before the wait. */
  const ReleasedLoad: seq<Action> := [Lock, RegisterAndSend, Unlock, AwaitReply]

  /** One handleResponse iteration that routes the reply: chrome.go:156, 162-167. */
  const DispatcherLoop: seq<Action> := [ReceiveReply, Lock, DeliverReply, Unlock]

  /** Program counters, the lock's holder, and how far the request has got. */
  datatype State = State(callerPc: nat, dispatcherPc: nat, holder: Option<Party>, sent: bool, delivered: bool)

  const Init: State := State(0, 0, None, false, false)

  predicate Enabled(s: State, a: Action) {
    match a
    case Lock => s.holder.None?
    case AwaitReply => s.delivered
    case ReceiveReply => s.sent
    case _ => true
  }

  function Perform(s: State, p: Party, a: Action): State {
    match a
    case Lock => s.(holder := Some(p))
    case Unlock => s.(holder := None)
    case RegisterAndSend => s.(sent := true)
    case DeliverReply => s.(delivered := true)
    case _ => s
  }

  /** Party `p` tries its next action; a finished or blocked party changes nothing. */
  function Step(caller: seq<Action>, s: State, p: Party): State {
    var prog := if p == Caller then caller else DispatcherLoop;
    var pc := if p == Caller then s.callerPc else s.dispatcherPc;
    if pc >= |prog| || !Enabled(s, prog[pc]) then s
    else
      var t := Perform(s, p, prog[pc]);
      if p == Caller then t.(callerPc := pc + 1) else t.(dispatcherPc := pc + 1)
  }

  function Run(caller: seq<Action>, s: State, schedule: seq<Party>): State
    decreases |schedule|
  {
    if schedule == [] then s else Run(caller, Step(caller, s, schedule[0]), schedule[1..])
  }

  predicate CallerReturned(caller: seq<Action>, s: State) {
    s.callerPc == |caller|
  }

  /** The states Load as written can reach: it never gets past its wait. */
  predicate AsWrittenReachable(s: State) {
    && s.callerPc <= 2 && !s.delivered
    && (s.callerPc == 0 ==> !s.sent && s.dispatcherPc == 0 && s.holder == None)
    && (s.callerPc == 1 ==> !s.sent && s.dispatcherPc == 0 && s.holder == Some(Caller))
    && (s.callerPc == 2 ==> s.sent && s.dispatcherPc <= 1 && s.holder == Some(Caller))
  }

  lemma {:induction false} AsWrittenStaysReachable(s: State, schedule: seq<Party>)
    requires AsWrittenReachable(s)
    ensures AsWrittenReachable(Run(LoadAsWritten, s, schedule))
    decreases |schedule|
  {
    if schedule != [] {
      AsWrittenStaysReachable(Step(LoadAsWritten, s, schedule[0]), schedule[1..]);
    }
  }

  /** Whatever the interleaving, Load as written never returns once its send succeeds. */
  lemma LoadAsWrittenNeverReturns(schedule: seq<Party>)
    ensures !CallerReturned(LoadAsWritten, Run(LoadAsWritten, Init, schedule))
  {
    AsWrittenStaysReachable(Init, schedule);
  }

  /**
   * A concrete deadlock: once Load has sent its request and the dispatcher has
   * received the reply, neither party can move and Load has not returned.
   */
  lemma LoadAsWrittenDeadlocks()
    ensures var s := Run(LoadAsWritten, Init, [Caller, Caller, Dispatcher]);
      && !CallerReturned(LoadAsWritten, s)
      && Step(LoadAsWritten, s, Caller) == s
      && Step(LoadAsWritten, s, Dispatcher) == s
  {
  }

  /** The states the lock-releasing order can reach. */
  predicate ReleasedReachable(s: State) {
    && s.callerPc <= 4 && s.dispatcherPc <= 4
    && (s.callerPc <= 1 ==> !s.sent && s.dispatcherPc == 0 && !s.delivered)
    && (s.callerPc == 0 ==> s.holder == None)
    && (s.callerPc == 1 ==> s.holder == Some(Caller))
    && (s.callerPc == 2 ==> s.sent && s.dispatcherPc <= 1 && s.holder == Some(Caller) && !s.delivered)
    && (s.callerPc >= 3 ==> s.sent)
    && (s.callerPc >= 3 && s.dispatcherPc <= 1 ==> s.holder == None && !s.delivered)
    && (s.callerPc >= 3 && s.dispatcherPc == 2 ==> s.holder == Some(Dispatcher) && !s.delivered)
    && (s.callerPc >= 3 && s.dispatcherPc == 3 ==> s.holder == Some(Dispatcher) && s.delivered)
    && (s.callerPc >= 3 && s.dispatcherPc == 4 ==> s.holder == None && s.delivered)
    && (s.callerPc == 4 ==> s.delivered)
  }

  lemma {:induction false} ReleasedStaysReachable(s: State, schedule: seq<Party>)
    requires ReleasedReachable(s)
    ensures ReleasedReachable(Run(ReleasedLoad, s, schedule))
    decreases |schedule|
  {
    if schedule != [] {
      ReleasedStaysReachable(Step(ReleasedLoad, s, schedule[0]), schedule[1..]);
    }
  }

  /**
   * With the lock released before the wait there is no deadlock: in every state any
   * interleaving reaches, either Load has returned or one of the two parties can move.
   */
  lemma ReleasedLoadNeverStuck(schedule: seq<Party>)
    ensures var s := Run(ReleasedLoad, Init, schedule);
      || CallerReturned(ReleasedLoad, s)
      || Step(ReleasedLoad, s, Caller) != s
      || Step(ReleasedLoad, s, Dispatcher) != s
  {
    ReleasedStaysReachable(Init, schedule);
  }

  /** Three turns for the caller, four for the dispatcher, then one more for the caller. */
  const CallerThenDispatcher: seq<Party> :=
    [Caller, Caller, Caller, Dispatcher, Dispatcher, Dispatcher, Dispatcher, Caller]

  /** What one turn does in a state the lock-releasing order can reach. */
  lemma ReleasedStepProgress(t: State, p: Party)
    requires ReleasedReachable(t)
    ensures var u := Step(ReleasedLoad, t, p);
      && ReleasedReachable(u)
      && u.callerPc >= t.callerPc && u.dispatcherPc >= t.dispatcherPc
      && (t.delivered ==> u.delivered)
      && (p == Caller && t.callerPc < 3 ==> u.callerPc == t.callerPc + 1)
      && (p == Caller && t.delivered ==> u.callerPc == 4)
      && (p == Dispatcher && t.callerPc >= 3 && t.dispatcherPc < 4 ==> u.dispatcherPc == t.dispatcherPc + 1)
  {
    assert [p][1..] == [];
    ReleasedStaysReachable(t, [p]);
  }

  /**
   * And Load returns once the dispatcher gets its turn: from any state the
   * lock-releasing order can reach, the caller's three steps, the dispatcher's four and
   * one more caller step bring Load to its end.
   */
  lemma ReleasedLoadReturns(s: State)
    requires ReleasedReachable(s)
    ensures CallerReturned(ReleasedLoad, Run(ReleasedLoad, s, CallerThenDispatcher))
  {
    var sched := CallerThenDispatcher;
    var t := s;
    for i := 0 to |sched|
      invariant ReleasedReachable(t)
      invariant Run(ReleasedLoad, s, sched) == Run(ReleasedLoad, t, sched[i..])
      invariant t.callerPc >= (if i <= 3 then i else 3)
      invariant 3 <= i <= 7 ==> t.dispatcherPc >= i - 3
      invariant i >= 7 ==> t.delivered
      invariant i == |sched| ==> t.callerPc == 4
    {
      assert sched[i..][1..] == sched[i + 1..];
      ReleasedStepProgress(t, sched[i]);
      t := Step(ReleasedLoad, t, sched[i]);
    }
  }
}
