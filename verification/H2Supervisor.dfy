/** The HTTP/2 client (tunnel/h2.go): the bundle in use and the channel that announces its
    changes, the supervisor that replaces bundles, the pumps, and Close. */
module H2Supervisor {
  import opened Basics

  type Tid = nat
  type Chan = nat
  type Bundle = nat

  // ---------------------------------------------------------------- the fields under connMu

  /** A Go channel made to be closed is a number; `closes` counts the close calls on each. */
  datatype Shared = Shared(current: Option<Bundle>, connChanged: Chan, made: nat, closes: multiset<Chan>, closed: bool)

  /** What a look at the fields gives a waitCurrent caller: a bundle, a refusal, or a channel to
      park on. */
  datatype Wait = Look | Parked(on: Chan) | Holding(bundle: Bundle) | Refused

  function Announced(sh: Shared, current: Option<Bundle>): Shared {
    Shared(current, sh.made, sh.made + 1, sh.closes + multiset{sh.connChanged}, sh.closed)
  }

  function AfterSet(sh: Shared, b: Bundle, cancelled: bool): Shared {
    if sh.closed || cancelled then sh else Announced(sh, Some(b))
  }

  function AfterClear(sh: Shared, b: Bundle): Shared {
    if sh.current != Some(b) then sh else Announced(sh, None)
  }

  function AfterClose(sh: Shared): Shared {
    Announced(sh.(closed := true), None)
  }

  function Looked(sh: Shared): Wait {
    if sh.closed then Refused else if sh.current.Some? then Holding(sh.current.value) else Parked(sh.connChanged)
  }

  /** The client's own fields, changed in place by one critical section at a time. */
  class Client {
    var current: Option<Bundle>
    var connChanged: Chan
    var made: nat
    var closes: multiset<Chan>
    var closed: bool

    ghost function View(): Shared
      reads this
    {
      Shared(current, connChanged, made, closes, closed)
    }

    constructor ()
      ensures View() == Shared(None, 0, 1, multiset{}, false)
    {
      current, connChanged, made, closes, closed := None, 0, 1, multiset{}, false;
    }

    /** close(c.connChanged) and its replacement. */
    method Announce()
      modifies this
      ensures View() == Announced(old(View()), old(current))
    {
      closes := closes + multiset{connChanged};
      connChanged := made;
      made := made + 1;
    }

    method SetCurrent(bundle: Bundle, cancelled: bool) returns (ok: bool)
      modifies this
      ensures ok <==> !old(closed) && !cancelled
      ensures ok ==>
                && current == Some(bundle)
                && closes == old(closes) + multiset{old(connChanged)} && connChanged == old(made)
      ensures !ok ==> View() == old(View())
      ensures View() == AfterSet(old(View()), bundle, cancelled)
    {
      if closed || cancelled { return false; }
      current := Some(bundle);
      Announce();
      return true;
    }

    method ClearCurrent(bundle: Bundle)
      modifies this
      ensures old(current) == Some(bundle) ==>
                current == None && closes == old(closes) + multiset{old(connChanged)} && connChanged == old(made)
      ensures old(current) != Some(bundle) ==> View() == old(View())
      ensures View() == AfterClear(old(View()), bundle)
    {
      if current != Some(bundle) { return; }
      current := None;
      Announce();
    }

    /** One turn of waitCurrent's loop, up to its select. */
    method LookAtCurrent() returns (found: Wait)
      ensures found == Looked(View())
      ensures closed ==> found == Refused
      ensures !closed && current.Some? ==> found == Holding(current.value)
      ensures !closed && current.None? ==> found == Parked(connChanged)
    {
      if closed { return Refused; }
      if current.Some? { return Holding(current.value); }
      return Parked(connChanged);
    }

    /** The critical section of Close. */
    method TakeForClose() returns (bundle: Option<Bundle>)
      modifies this
      ensures View() == AfterClose(old(View())) && bundle == old(current)
      ensures closed && current == None && closes == old(closes) + multiset{old(connChanged)}
              && connChanged == old(made)
    {
      closed := true;
      bundle := current;
      current := None;
      Announce();
    }
  }

  // ---------------------------------------------------------------- a bundle

  datatype Cause = ReadError | StackError | PingError | WriteError

  datatype Child = NotStarted | Running | Over

  /** A bundle: the guard and the one-place channel of fail, whether close has run, and its two
      goroutines. `installed` records that it was ever current. */
  datatype Conn = Conn(failOnce: bool, failed: Option<Cause>, done: bool, installed: bool, pump: Child, ping: Child)

  const NEW: Conn := Conn(false, None, false, false, NotStarted, NotStarted)

  /** h2Bundle.fail: the first call sends, unless the channel is full; the others do nothing. */
  function Fail(c: Conn, cause: Cause): Conn {
    if c.failOnce then c else c.(failOnce := true, failed := if c.failed.None? then Some(cause) else c.failed)
  }

  function ShutConn(c: Conn): Conn {
    c.(done := true)
  }

  /** The mutable part of an h2Bundle. */
  class H2Bundle {
    var failOnce: bool
    var failed: Option<Cause>
    var done: bool

    ghost predicate Is(c: Conn)
      reads this
    {
      c.failOnce == failOnce && c.failed == failed && c.done == done
    }

    constructor ()
      ensures Is(NEW)
    {
      failOnce, failed, done := false, None, false;
    }

    method Report(cause: Cause, ghost c: Conn)
      requires Is(c)
      modifies this
      ensures Is(Fail(c, cause))
    {
      if failOnce { return; }
      failOnce := true;
      if failed.None? { failed := Some(cause); }
    }

    method Close(ghost c: Conn)
      requires Is(c)
      modifies this
      ensures Is(ShutConn(c))
    {
      done := true;
    }
  }

  /** The first report on a bundle is the one the supervisor receives, whatever follows. */
  lemma {:induction false} FirstReportWins(c: Conn, cause: Cause, later: seq<Cause>)
    requires !c.failOnce && c.failed.None?
    ensures FailAll(Fail(c, cause), later).failed == Some(cause)
  {
    if later != [] {
      FirstReportWins(c, cause, later[..|later| - 1]);
      FailedStays(Fail(c, cause), later[..|later| - 1]);
    }
  }

  function FailAll(c: Conn, causes: seq<Cause>): Conn {
    if causes == [] then c else Fail(FailAll(c, causes[..|causes| - 1]), causes[|causes| - 1])
  }

  lemma {:induction false} FailedStays(c: Conn, causes: seq<Cause>)
    requires c.failOnce
    ensures FailAll(c, causes).failOnce
  {
    if causes != [] { FailedStays(c, causes[..|causes| - 1]); }
  }

  // ---------------------------------------------------------------- the machine

  datatype SupervisorPc =
    | Spawn       // :404-413
    | Select      // :416
    | Clear       // :422
    | Shut        // :423
    | Join        // :424
    | Check       // :425
    | Delay       // :431
    | Dialing     // :436
    | Recheck     // :438
    | Install     // :444
    | DropNew     // :445
    | Exited

  datatype Supervisor = Supervisor(pc: SupervisorPc, bundle: Bundle, dialed: Option<Bundle>)

  datatype Outbound = Reading | Calling(wait: Wait) | Stopped

  datatype CloserPc = NotCalled | Cancel | ShutBundle | ShutStack | WaitAll | Returned

  datatype Closer = Closer(pc: CloserPc, bundle: Option<Bundle>)

  /** How far the end is: `late` counts the dials begun after the client's context was cancelled. */
  datatype Ending = Ending(cancelled: bool, stackClosed: bool, closer: Closer, late: nat)

  datatype State = State(sh: Shared, end: Ending, bundles: seq<Conn>, sup: Supervisor, outbound: Outbound,
                         callers: map<Tid, Wait>)

  /** As NewH2ClientContext leaves it: the first bundle is installed and the goroutines start. */
  predicate Init(s: State) {
    s == State(Announced(Shared(None, 0, 1, multiset{}, false), Some(0)),
               Ending(false, false, Closer(NotCalled, None), 0),
               [NEW.(installed := true)], Supervisor(Spawn, 0, None), Reading, map[])
  }

  /** Steps of the supervisor (`branch` says which case of a select fired or whether a dial
      succeeded: true for cancellation and for success), of a bundle's two goroutines (which end
      `quietly` when they find the bundle done or the client cancelled), of the outbound pump, of
      any other waitCurrent callers, and of Close. */
  datatype Action =
    | Supervise(branch: bool)
    | PumpEnds(b: Bundle, quietly: bool, cause: Cause)
    | PingEnds(b: Bundle, quietly: bool)
    | ReadStack(ok: bool)
    | Outward(stop: bool)
    | WriteEdge(ok: bool)
    | Call(t: Tid)
    | Wake(t: Tid)
    | GiveUp(t: Tid)
    | CloseStep

  predicate Woken(s: State, w: Wait) {
    w.Look? || (w.Parked? && s.sh.closes[w.on] > 0)
  }

  predicate Enabled(s: State, a: Action) {
    match a
    case Supervise(branch) =>
      && s.sup.bundle < |s.bundles|
      && (s.sup.dialed.Some? ==> s.sup.dialed.value < |s.bundles|)
      && (match s.sup.pc
          case Select => if branch then s.end.cancelled else s.bundles[s.sup.bundle].failed.Some?
          case Join => s.bundles[s.sup.bundle].pump.Over? && s.bundles[s.sup.bundle].ping.Over?
          case Delay => branch ==> s.end.cancelled
          case Install => s.sup.dialed.Some?
          case DropNew => s.sup.dialed.Some?
          case Exited => false
          case _ => true)
    case PumpEnds(b, quietly, _) =>
      b < |s.bundles| && s.bundles[b].pump.Running? && (quietly ==> s.bundles[b].done || s.end.cancelled)
    case PingEnds(b, quietly) =>
      b < |s.bundles| && s.bundles[b].ping.Running? && (quietly ==> s.bundles[b].done || s.end.cancelled)
    case ReadStack(ok) => s.outbound.Reading? && (s.end.stackClosed ==> !ok)
    case Outward(stop) => s.outbound.Calling?
        && (if stop then s.outbound.wait.Parked? && s.end.cancelled else Woken(s, s.outbound.wait))
    case WriteEdge(_) => s.outbound.Calling? && s.outbound.wait.Holding? && s.outbound.wait.bundle < |s.bundles|
    case Call(t) => t in s.callers ==> s.callers[t].Holding? || s.callers[t].Refused?
    case Wake(t) => t in s.callers && Woken(s, s.callers[t])
    case GiveUp(t) => t in s.callers && s.callers[t].Parked?
    case CloseStep =>
      && !s.end.closer.pc.Returned?
      && (s.end.closer.pc.WaitAll? ==> s.sup.pc.Exited? && s.outbound.Stopped?)
      && (s.end.closer.bundle.Some? ==> s.end.closer.bundle.value < |s.bundles|)
  }

  function ShutDown(bundles: seq<Conn>, b: Bundle): seq<Conn>
    requires b < |bundles|
  {
    bundles[b := ShutConn(bundles[b])]
  }

  function At(s: State, pc: SupervisorPc): State {
    s.(sup := s.sup.(pc := pc))
  }

  function Supervised(s: State, branch: bool): State
    requires Enabled(s, Supervise(branch))
  {
    var b := s.sup.bundle;
    match s.sup.pc
    case Spawn => At(s, Select).(bundles := s.bundles[b := s.bundles[b].(pump := Running, ping := Running)])
    case Select =>
      if branch then At(s, Clear)
      else At(s, Clear).(bundles := s.bundles[b := s.bundles[b].(failed := None)])
    case Clear => At(s, Shut).(sh := AfterClear(s.sh, b))
    case Shut => At(s, Join).(bundles := ShutDown(s.bundles, b))
    case Join => At(s, Check)
    case Check => At(s, if s.end.cancelled then Exited else Delay)
    case Delay =>
      if branch then At(s, Exited)
      else At(s, Dialing).(end := s.end.(late := s.end.late + if s.end.cancelled then 1 else 0))
    case Dialing =>
      if branch then s.(sup := Supervisor(Install, b, Some(|s.bundles|)), bundles := s.bundles + [NEW])
      else At(s, Recheck)
    case Recheck => At(s, if s.end.cancelled then Exited else Delay)
    case Install =>
      var n := s.sup.dialed.value;
      if s.sh.closed || s.end.cancelled then At(s, DropNew)
      else s.(sup := Supervisor(Spawn, n, None), sh := AfterSet(s.sh, n, s.end.cancelled),
              bundles := s.bundles[n := s.bundles[n].(installed := true)])
    case DropNew => s.(sup := Supervisor(Exited, b, None), bundles := ShutDown(s.bundles, s.sup.dialed.value))
    case Exited => s
  }

  function Closed(s: State): State
    requires Enabled(s, CloseStep)
  {
    match s.end.closer.pc
    case NotCalled => s.(sh := AfterClose(s.sh), end := s.end.(closer := Closer(Cancel, s.sh.current)))
    case Cancel => s.(end := s.end.(cancelled := true, closer := s.end.closer.(pc := ShutBundle)))
    case ShutBundle =>
      s.(end := s.end.(closer := s.end.closer.(pc := ShutStack)),
         bundles := if s.end.closer.bundle.Some? then ShutDown(s.bundles, s.end.closer.bundle.value) else s.bundles)
    case ShutStack => s.(end := s.end.(stackClosed := true, closer := s.end.closer.(pc := WaitAll)))
    case _ => s.(end := s.end.(closer := s.end.closer.(pc := Returned)))
  }

  function Reported(bundles: seq<Conn>, b: Bundle, quietly: bool, cause: Cause): seq<Conn>
    requires b < |bundles|
  {
    if quietly then bundles else bundles[b := Fail(bundles[b], cause)]
  }

  function GoroutineOver(bundles: seq<Conn>, b: Bundle, pump: bool): seq<Conn>
    requires b < |bundles|
  {
    bundles[b := if pump then bundles[b].(pump := Over) else bundles[b].(ping := Over)]
  }

  /** The outbound pump's own call of waitCurrent, whose context is the client's. */
  function AfterOutward(s: State, w: Wait, stop: bool): Outbound {
    var next := if stop then Refused else if w.Look? then Looked(s.sh) else Look;
    if next.Refused? then Stopped else Calling(next)
  }

  function After(s: State, a: Action): State
    requires Enabled(s, a)
  {
    match a
    case Supervise(branch) => Supervised(s, branch)
    case PumpEnds(b, quietly, cause) => s.(bundles := GoroutineOver(Reported(s.bundles, b, quietly, cause), b, true))
    case PingEnds(b, quietly) => s.(bundles := GoroutineOver(Reported(s.bundles, b, quietly, PingError), b, false))
    case ReadStack(ok) => s.(outbound := if ok then Calling(Look) else Stopped)
    case Outward(stop) => s.(outbound := AfterOutward(s, s.outbound.wait, stop))
    case WriteEdge(ok) => s.(outbound := Reading,
                             bundles := Reported(s.bundles, s.outbound.wait.bundle, ok, WriteError))
    case Call(t) => s.(callers := s.callers[t := Look])
    case Wake(t) => s.(callers := s.callers[t := if s.callers[t].Look? then Looked(s.sh) else Look])
    case GiveUp(t) => s.(callers := s.callers[t := Refused])
    case CloseStep => Closed(s)
  }

  ghost predicate Run(ss: seq<State>, acts: seq<Action>) {
    && |ss| == |acts| + 1
    && Init(ss[0])
    && forall i :: 0 <= i < |acts| ==> Enabled(ss[i], acts[i]) && ss[i + 1] == After(ss[i], acts[i])
  }
}
