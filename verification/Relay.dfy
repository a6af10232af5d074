/**
 The two copy threads of one relayed connection, as a state machine over their steps
 (forward_native_service.py). A half-close is the FIN of one direction in the sense of
 section 3.6.1 of RFC 9293: it ends that direction only.
 */
module Relay {
  import opened Contracts

  type Byte = b: int | 0 <= b < 256

  const ATTEMPTS := 3

  datatype Direction = Upload | Download

  function Other(d: Direction): Direction {
    if d.Upload? then Download else Upload
  }

  /** Where a copy thread is. `rest` is what sendall still owes of the last chunk. */
  datatype Phase =
    | NotStarted
    | Receiving
    | Sending(rest: seq<Byte>)
    | HalfClosing
    | Clean
    | Raised
    | Reporting
    | Aborting(left: nat)
    | Broken

  /** One direction: what the thread has read from its source, and what it has handed to its destination. */
  datatype Flow = Flow(phase: Phase, received: seq<Byte>, delivered: seq<Byte>, halfClosed: bool)

  /** Where the handler thread is outside its own copy loop. */
  datatype Handler =
    | Connecting(attempt: nat)
    | Configuring
    | Copying
    | HandlerRaised
    | HandlerReporting
    | Closing
    | CloseRaised
    | CloseReporting
    | Finished

  /** `shut` says that some thread shut both directions of both sockets down after a failure. */
  datatype Connection = Connection(
    handler: Handler, upload: Flow, download: Flow,
    connects: nat, connected: bool, recorded: bool, reports: nat, shut: bool)

  const IDLE := Flow(NotStarted, [], [], false)

  const ACCEPTED := Connection(Connecting(0), IDLE, IDLE, 0, false, false, 0, false)

  function FlowOf(c: Connection, d: Direction): Flow {
    if d.Upload? then c.upload else c.download
  }

  function WithFlow(c: Connection, d: Direction, f: Flow): Connection {
    if d.Upload? then c.(upload := f) else c.(download := f)
  }

  /** One atomic step, with the operating system's answer. */
  datatype Action =
    | Connect(ok: bool, retryable: bool)
    | Configure(ok: bool)
    | Receive(d: Direction, data: seq<Byte>)
    | EndOfStream(d: Direction)
    | ReceiveFails(d: Direction)
    | SendSome(d: Direction, n: nat)
    | SendFails(d: Direction)
    | HalfClose(d: Direction, ok: bool)
    | TakeLock(d: Direction)
    | Report(d: Direction)
    | ShutDown(d: Direction)
    | Join
    | HandlerTakesLock
    | HandlerReports
    | Close(ok: bool)

  // ---------------------------------------------------------------- the steps

  /** The steps of one copy thread on its own flow, apart from the shared error record. */
  function CopyStep(f: Flow, a: Action): Option<Flow> {
    match a
    case Receive(_, data) =>
      if f.phase.Receiving? && data != [] then Some(f.(phase := Sending(data), received := f.received + data)) else None
    case EndOfStream(_) => if f.phase.Receiving? then Some(f.(phase := HalfClosing)) else None
    case ReceiveFails(_) => if f.phase.Receiving? then Some(f.(phase := Raised)) else None
    case SendSome(_, n) =>
      if f.phase.Sending? && 0 < n <= |f.phase.rest| then
        var left := f.phase.rest[n..];
        Some(f.(phase := if left == [] then Receiving else Sending(left), delivered := f.delivered + f.phase.rest[..n]))
      else None
    case SendFails(_) => if f.phase.Sending? then Some(f.(phase := Raised)) else None
    case HalfClose(_, ok) =>
      if !f.phase.HalfClosing? then None
      else if ok then Some(f.(phase := Clean, halfClosed := true))
      else Some(f.(phase := Raised))
    case _ => None
  }

  /** The exception path of a copy thread: the guarded record, the report, and both shutdowns. */
  function AbortStep(c: Connection, d: Direction, a: Action): Option<Connection> {
    var f := FlowOf(c, d);
    match a
    case TakeLock(_) =>
      if !f.phase.Raised? then None
      else if c.recorded then Some(WithFlow(c, d, f.(phase := Aborting(2))))
      else Some(WithFlow(c.(recorded := true), d, f.(phase := Reporting)))
    case Report(_) =>
      if f.phase.Reporting? then Some(WithFlow(c.(reports := c.reports + 1), d, f.(phase := Aborting(2)))) else None
    case ShutDown(_) =>
      if f.phase.Aborting? && f.phase.left > 0 then
        Some(WithFlow(c.(shut := true), d, f.(phase := if f.phase.left == 1 then Broken else Aborting(f.phase.left - 1))))
      else None
    case _ => None
  }

  predicate Ended(f: Flow) {
    f.phase.Clean? || f.phase.Broken?
  }

  /** The handler thread: connect with retries, start the copies, join, and close in `finally`. */
  function HandlerStep(c: Connection, a: Action): Option<Connection> {
    match a
    case Connect(ok, retryable) =>
      if !c.handler.Connecting? then None
      else
        var c1 := c.(connects := c.connects + 1);
        if ok then Some(c1.(handler := Configuring, connected := true))
        else if retryable && c.handler.attempt + 1 < ATTEMPTS then Some(c1.(handler := Connecting(c.handler.attempt + 1)))
        else Some(c1.(handler := HandlerRaised))
    case Configure(ok) =>
      if !c.handler.Configuring? then None
      else if ok then Some(c.(handler := Copying, upload := IDLE.(phase := Receiving), download := IDLE.(phase := Receiving)))
      else Some(c.(handler := HandlerRaised))
    case Join => if c.handler.Copying? && Ended(c.upload) && Ended(c.download) then Some(c.(handler := Closing)) else None
    case HandlerTakesLock =>
      if c.handler.HandlerRaised? then Some(c.(recorded := true, handler := if c.recorded then Closing else HandlerReporting))
      else if c.handler.CloseRaised? then Some(c.(recorded := true, handler := if c.recorded then Finished else CloseReporting))
      else None
    case HandlerReports =>
      if c.handler.HandlerReporting? then Some(c.(reports := c.reports + 1, handler := Closing))
      else if c.handler.CloseReporting? then Some(c.(reports := c.reports + 1, handler := Finished))
      else None
    case Close(ok) =>
      if !c.handler.Closing? then None
      else if ok || !c.connected then Some(c.(handler := Finished))
      else Some(c.(handler := CloseRaised))
    case _ => None
  }

  predicate Shared(a: Action) {
    a.TakeLock? || a.Report? || a.ShutDown?
  }

  predicate OfHandler(a: Action) {
    a.Connect? || a.Configure? || a.Join? || a.HandlerTakesLock? || a.HandlerReports? || a.Close?
  }

  function Step(c: Connection, a: Action): Option<Connection> {
    if OfHandler(a) then HandlerStep(c, a)
    else if Shared(a) then AbortStep(c, a.d, a)
    else
      match CopyStep(FlowOf(c, a.d), a)
      case None => None
      case Some(f) => Some(WithFlow(c, a.d, f))
  }

  /** The connection after these steps, in any interleaving of the threads; None when one was not possible. */
  function After(steps: seq<Action>): Option<Connection> {
    if steps == [] then Some(ACCEPTED)
    else
      match After(steps[..|steps| - 1])
      case None => None
      case Some(c) => Step(c, steps[|steps| - 1])
  }

  // ---------------------------------------------------------------- the invariant

  predicate Prefix(a: seq<Byte>, b: seq<Byte>) {
    a <= b
  }

  /** What is delivered of one direction is what was received, up to what is still being sent. */
  predicate GoodFlow(f: Flow) {
    && (f.halfClosed <==> f.phase.Clean?)
    && match f.phase
       case NotStarted => f.received == [] && f.delivered == []
       case Sending(rest) => rest != [] && f.delivered + rest == f.received
       case Receiving => f.delivered == f.received
       case HalfClosing => f.delivered == f.received
       case Clean => f.delivered == f.received
       case _ => Prefix(f.delivered, f.received)
  }

  /** Threads that recorded a failure and have not reported it yet. */
  function Unreported(c: Connection): nat {
    (if c.upload.phase.Reporting? then 1 else 0) + (if c.download.phase.Reporting? then 1 else 0)
    + (if c.handler.HandlerReporting? || c.handler.CloseReporting? then 1 else 0)
  }

  predicate Aborted(f: Flow) {
    f.phase.Aborting? || f.phase.Broken?
  }

  predicate Inv(c: Connection) {
    && GoodFlow(c.upload) && GoodFlow(c.download)
    && c.reports + Unreported(c) == (if c.recorded then 1 else 0)
    && c.connects <= ATTEMPTS
    && (c.handler.Connecting? ==> c.connects == c.handler.attempt < ATTEMPTS && !c.connected)
    && (!c.connected ==> c.upload.phase.NotStarted? && c.download.phase.NotStarted?)
    && (c.shut ==> c.recorded)
    && (Aborted(c.upload) || Aborted(c.download) ==> c.recorded)
    && (c.handler.Configuring? ==> c.upload == IDLE && c.download == IDLE && c.connected)
  }

  lemma CopyKeepsFlow(f: Flow, a: Action)
    requires GoodFlow(f) && CopyStep(f, a).Some?
    ensures GoodFlow(CopyStep(f, a).value)
    ensures !CopyStep(f, a).value.phase.NotStarted? && !f.phase.NotStarted?
    ensures !CopyStep(f, a).value.phase.Reporting? && !f.phase.Reporting?
    ensures !Aborted(f) && !Aborted(CopyStep(f, a).value)
  {
    if a.SendSome? {
      var rest := f.phase.rest;
      assert rest == rest[..a.n] + rest[a.n..];
      assert f.delivered + rest == (f.delivered + rest[..a.n]) + rest[a.n..];
    }
  }

  lemma HandlerKeeps(c: Connection, a: Action)
    requires Inv(c) && HandlerStep(c, a).Some?
    ensures Inv(HandlerStep(c, a).value)
  {
  }

  lemma AbortKeeps(c: Connection, d: Direction, a: Action)
    requires Inv(c) && AbortStep(c, d, a).Some?
    ensures Inv(AbortStep(c, d, a).value)
  {
  }

  lemma CopyKeeps(c: Connection, a: Action)
    requires Inv(c) && !OfHandler(a) && !Shared(a) && CopyStep(FlowOf(c, a.d), a).Some?
    ensures Inv(WithFlow(c, a.d, CopyStep(FlowOf(c, a.d), a).value))
  {
    hide GoodFlow;
    CopyKeepsFlow(FlowOf(c, a.d), a);
    hide CopyStep;
  }

  lemma StepKeeps(c: Connection, a: Action)
    requires Inv(c) && Step(c, a).Some?
    ensures Inv(Step(c, a).value)
  {
    hide Inv;
    hide HandlerStep;
    hide AbortStep;
    hide CopyStep;
    if OfHandler(a) {
      HandlerKeeps(c, a);
    } else if Shared(a) {
      AbortKeeps(c, a.d, a);
    } else {
      CopyKeeps(c, a);
    }
  }

  lemma {:induction false} AlwaysInv(steps: seq<Action>)
    requires After(steps).Some?
    ensures Inv(After(steps).value)
  {
    hide Inv;
    hide Step;
    if steps == [] {
      InitialInv();
    } else {
      AlwaysInv(steps[..|steps| - 1]);
      StepKeeps(After(steps[..|steps| - 1]).value, steps[|steps| - 1]);
    }
  }

  lemma InitialInv()
    ensures Inv(ACCEPTED)
  {
  }

  // ---------------------------------------------------------------- what a relayed connection promises

  /** What reaches a peer is always a prefix of what was read for it, and all of it after a half-close. */
  lemma StreamIntegrity(steps: seq<Action>, d: Direction)
    requires After(steps).Some?
    ensures var f := FlowOf(After(steps).value, d);
      Prefix(f.delivered, f.received) && (f.halfClosed ==> f.delivered == f.received)
  {
    AlwaysInv(steps);
    var f := FlowOf(After(steps).value, d);
    if f.phase.Sending? { assert f.delivered <= f.delivered + f.phase.rest; }
  }

  /** Both copies ended cleanly: each peer got everything the other sent, and both saw the end. */
  lemma CleanCompletion(steps: seq<Action>)
    requires After(steps).Some? && After(steps).value.upload.phase.Clean? && After(steps).value.download.phase.Clean?
    ensures var c := After(steps).value;
      c.upload.delivered == c.upload.received && c.download.delivered == c.download.received
      && c.upload.halfClosed && c.download.halfClosed
  {
    AlwaysInv(steps);
  }

  /** No client byte is read before upstream is connected, and connecting is tried at most three times. */
  lemma ConnectsFirst(steps: seq<Action>)
    requires After(steps).Some?
    ensures After(steps).value.connects <= ATTEMPTS
    ensures !After(steps).value.connected ==> After(steps).value.upload.received == []
  {
    AlwaysInv(steps);
  }

  /**
   At most one failure is reported, a recorded one is reported once no thread is on its way to do so,
   and the sockets are torn down only after one was recorded.
   */
  lemma OneReport(steps: seq<Action>)
    requires After(steps).Some?
    ensures After(steps).value.reports <= 1
    ensures After(steps).value.shut ==> After(steps).value.recorded
    ensures After(steps).value.recorded && Unreported(After(steps).value) == 0 ==> After(steps).value.reports == 1
  {
    AlwaysInv(steps);
  }

  /**
   A half-close of one direction takes nothing from the other: whatever the other copy could do
   before it can do after, with the same effect, in either order.
   */
  lemma HalfCloseCommutes(c: Connection, d: Direction, a: Action)
    requires Step(c, HalfClose(d, true)).Some?
    requires !OfHandler(a) && a.d == Other(d)
    ensures var closed := Step(c, HalfClose(d, true)).value;
      FlowOf(closed, Other(d)) == FlowOf(c, Other(d))
      && (Step(closed, a).Some? <==> Step(c, a).Some?)
      && (Step(c, a).Some? ==>
            Step(Step(c, a).value, HalfClose(d, true)) == Step(closed, a))
  {
  }

  /** Every started copy ends: each step of a copy that reads nothing more brings it nearer to its end. */
  function Left(f: Flow): nat {
    match f.phase
    case NotStarted => 0
    case Receiving => 6
    case Sending(rest) => 6 + |rest|
    case HalfClosing => 5
    case Raised => 4
    case Reporting => 3
    case Aborting(n) => n
    case Clean => 0
    case Broken => 0
  }

  lemma CopyProgresses(c: Connection, a: Action)
    requires Step(c, a).Some? && !OfHandler(a) && !a.Receive?
    ensures Left(FlowOf(Step(c, a).value, a.d)) < Left(FlowOf(c, a.d))
    ensures FlowOf(Step(c, a).value, Other(a.d)) == FlowOf(c, Other(a.d))
  {
  }

  // ---------------------------------------------------------------- the connect loop

  /** One attempt: the time left at its start, whether it connected in time, or how it failed. */
  datatype Attempt = Attempt(expired: bool, ok: bool, retryable: bool, fits: bool)

  /** connect_upstream: the number of connects made, and whether one succeeded. */
  method ConnectUpstream(attempts: nat -> Attempt) returns (ok: bool, connects: nat)
    ensures connects <= ATTEMPTS
    ensures ok <==>
              exists n: nat :: n < ATTEMPTS && !attempts(n).expired && attempts(n).ok
                && forall k: nat :: k < n ==> !attempts(k).expired && !attempts(k).ok && attempts(k).retryable && attempts(k).fits
    ensures ok ==> connects > 0 && attempts(connects - 1).ok
  {
    connects := 0;
    for attempt := 0 to ATTEMPTS
      invariant connects == attempt
      invariant forall k: nat :: k < attempt ==>
                  !attempts(k).expired && !attempts(k).ok && attempts(k).retryable && attempts(k).fits
    {
      var a := attempts(attempt);
      if a.expired {
        return false, connects;
      }
      connects := connects + 1;
      if a.ok {
        return true, connects;
      }
      if attempt == ATTEMPTS - 1 || !a.retryable || !a.fits {
        return false, connects;
      }
    }
    return false, connects;
  }
}
