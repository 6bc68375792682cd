/** One tunnelled connection of the HTTP/3 client (tunnel/masque.go:635-677): the handler copies
    from the client to the edge, a goroutine copies back, and either may release the pair. */
module TunnelRelay {
  import opened Basics

  /** relayDrainGrace, in ticks of one second. */
  const GRACE: nat := 30

  /** The handler runs the copy up to the edge, the goroutine the copy down to the client. */
  datatype Side = Handler | Goroutine

  /** The handler. While it awaits the response it carries the ticks its timer has left. */
  datatype HandlerPc =
    | CopyUp
    | ReleaseError
    | HalfClose
    | Await(left: nat)
    | ReleaseGrace
    | WaitDrained
    | DeferredRelease
    | Returned

  datatype GoroutinePc = CopyDown | ReleaseDown | CloseDrained | Ended

  /** A sync.Once whose body has three calls: CancelRead, Close and conn.Close. */
  datatype Once = NotRun | Body(who: Side, done: nat) | Ran

  datatype Ending = EndOfStream | ReadFailed | WriteFailed

  /** One direction: all its source has written, whether that is the end of it, the chunk the
      copy has read and not yet written, and what it has written through. */
  datatype Flow = Flow(sent: seq<byte>, finished: bool, chunk: seq<byte>, through: seq<byte>)

  datatype Resources = Resources(readCancelled: bool, sendClosed: bool, connClosed: bool)

  datatype Faults = Faults(clientBroken: bool, edgeReset: bool, shutdown: bool)

  /** What the code does not keep: how the copies ended, whether the timer fired, and how often
      the body of release and the CancelRead in it were run. */
  datatype History = History(upFailed: bool, graceFired: bool, downEnded: Option<Ending>, bodies: nat, cancels: nat)

  datatype State = State(handler: HandlerPc, goroutine: GoroutinePc, once: Once, drained: bool,
                         res: Resources, up: Flow, down: Flow, faults: Faults, past: History)

  const NOTHING: Flow := Flow([], false, [], [])

  predicate Init(s: State) {
    s == State(CopyUp, CopyDown, NotRun, false, Resources(false, false, false), NOTHING, NOTHING,
               Faults(false, false, false), History(false, false, None, 0, 0))
  }

  /** What the world does to a connection: each end may write, finish or break, and the monitor of
      :471-477 closes the client's connection when the process shuts down. */
  datatype Event = Writes(side: Side, bytes: seq<byte>) | Finishes(side: Side) | Breaks(side: Side) | Shutdown

  datatype Action =
    | World(event: Event)
    | Read(side: Side, n: nat)
    | Write(side: Side)
    | UpEnds(failed: bool)
    | DownEnds(ending: Ending)
    | Release(side: Side)
    | CloseSend
    | Tick
    | GraceFires
    | SeeDrained
    | SignalDrained

  /** Everything but the world and the reads and writes inside the two io.Copy calls. */
  predicate Control(a: Action) {
    !a.World? && !a.Read? && !a.Write?
  }

  function FlowOf(s: State, side: Side): Flow {
    if side == Handler then s.up else s.down
  }

  function WithFlow(s: State, side: Side, flow: Flow): State {
    if side == Handler then s.(up := flow) else s.(down := flow)
  }

  predicate Copying(s: State, side: Side) {
    if side == Handler then s.handler.CopyUp? else s.goroutine.CopyDown?
  }

  /** Release is what makes reads and writes fail: CancelRead and Close on the stream, Close on
      the connection. */
  predicate CanRead(s: State, side: Side) {
    if side == Handler then !s.res.connClosed && !s.faults.clientBroken else !s.res.readCancelled
  }

  predicate CanWrite(s: State, side: Side) {
    if side == Handler then !s.res.sendClosed else !s.res.connClosed
  }

  predicate ReadFails(s: State, side: Side) {
    if side == Handler then s.res.connClosed || s.faults.clientBroken else s.res.readCancelled || s.faults.edgeReset
  }

  predicate WriteFails(s: State, side: Side) {
    if side == Handler then s.res.sendClosed || s.faults.edgeReset else s.res.connClosed || s.faults.clientBroken
  }

  /** Nothing more will come from the source of a direction: it has finished, or it has broken. */
  predicate Settled(s: State, side: Side) {
    FlowOf(s, side).finished || (if side == Handler then s.faults.clientBroken else s.faults.edgeReset)
  }

  predicate AtEnd(f: Flow) {
    f.chunk == [] && f.finished && |f.through| == |f.sent|
  }

  predicate AtRelease(s: State, side: Side) {
    if side == Goroutine then s.goroutine.ReleaseDown?
    else s.handler.ReleaseError? || s.handler.ReleaseGrace? || s.handler.DeferredRelease?
  }

  predicate Happens(s: State, e: Event) {
    match e
    case Writes(side, _) => !Settled(s, side)
    case Shutdown => !s.handler.Returned?
    case _ => true
  }

  predicate Enabled(s: State, a: Action) {
    match a
    case World(e) => Happens(s, e)
    case Read(side, n) =>
      Copying(s, side) && CanRead(s, side) && FlowOf(s, side).chunk == []
      && 0 < n <= |FlowOf(s, side).sent| - |FlowOf(s, side).through|
    case Write(side) => Copying(s, side) && CanWrite(s, side) && FlowOf(s, side).chunk != []
    // io.Copy ends well at the end of its source, badly on the first read or write that fails
    case UpEnds(failed) =>
      Copying(s, Handler)
      && (if failed then (if s.up.chunk == [] then ReadFails(s, Handler) else WriteFails(s, Handler))
          else AtEnd(s.up) && CanRead(s, Handler))
    case DownEnds(ending) =>
      Copying(s, Goroutine)
      && (match ending
          case EndOfStream => AtEnd(s.down) && CanRead(s, Goroutine)
          case ReadFailed => s.down.chunk == [] && ReadFails(s, Goroutine)
          case WriteFailed => s.down.chunk != [] && WriteFails(s, Goroutine))
    // a second caller of once.Do waits until the first has finished
    case Release(side) => AtRelease(s, side) && (s.once.Body? ==> s.once.who == side)
    case CloseSend => s.handler.HalfClose?
    case Tick => s.handler.Await? && s.handler.left > 0
    case GraceFires => s.handler.Await? && s.handler.left == 0
    case SeeDrained => (s.handler.Await? || s.handler.WaitDrained?) && s.drained
    case SignalDrained => s.goroutine.CloseDrained?
  }

  function Changed(s: State, e: Event): State {
    match e
    case Writes(side, bytes) => WithFlow(s, side, FlowOf(s, side).(sent := FlowOf(s, side).sent + bytes))
    case Finishes(side) => WithFlow(s, side, FlowOf(s, side).(finished := true))
    case Breaks(side) => s.(faults := if side == Handler then s.faults.(clientBroken := true)
                            else s.faults.(edgeReset := true))
    case Shutdown => s.(faults := s.faults.(shutdown := true), res := s.res.(connClosed := true))
  }

  function AfterRead(f: Flow, n: nat): Flow
    requires n <= |f.sent| - |f.through|
  {
    f.(chunk := f.sent[|f.through|..|f.through| + n])
  }

  function AfterWrite(f: Flow): Flow {
    f.(through := f.through + f.chunk, chunk := [])
  }

  /** One step of release: entering the once, one call of its body, or returning from it. */
  function Released(s: State, side: Side): State {
    match s.once
    case NotRun => s.(once := Body(side, 0), past := s.past.(bodies := s.past.bodies + 1))
    case Body(who, done) =>
      if done == 0 then s.(once := Body(who, 1), res := s.res.(readCancelled := true),
                           past := s.past.(cancels := s.past.cancels + 1))
      else if done == 1 then s.(once := Body(who, 2), res := s.res.(sendClosed := true))
      else s.(once := Ran, res := s.res.(connClosed := true))
    case Ran =>
      if side == Goroutine then s.(goroutine := CloseDrained)
      else s.(handler := if s.handler.DeferredRelease? then Returned else WaitDrained)
  }

  function After(s: State, a: Action): State
    requires Enabled(s, a)
  {
    match a
    case World(e) => Changed(s, e)
    case Read(side, n) => WithFlow(s, side, AfterRead(FlowOf(s, side), n))
    case Write(side) => WithFlow(s, side, AfterWrite(FlowOf(s, side)))
    case UpEnds(failed) => s.(handler := if failed then ReleaseError else HalfClose,
                              past := s.past.(upFailed := failed))
    case DownEnds(ending) => s.(goroutine := ReleaseDown, past := s.past.(downEnded := Some(ending)))
    case Release(side) => Released(s, side)
    case CloseSend => s.(handler := Await(GRACE), res := s.res.(sendClosed := true))
    case Tick => s.(handler := Await(s.handler.left - 1))
    case GraceFires => s.(handler := ReleaseGrace, past := s.past.(graceFired := true))
    case SeeDrained => s.(handler := if s.handler.Await? then WaitDrained else DeferredRelease)
    case SignalDrained => s.(goroutine := Ended, drained := true)
  }

  ghost predicate Run(ss: seq<State>, acts: seq<Action>) {
    && |ss| == |acts| + 1
    && Init(ss[0])
    && forall i :: 0 <= i < |acts| ==> Enabled(ss[i], acts[i]) && ss[i + 1] == After(ss[i], acts[i])
  }

  // ---------------------------------------------------------------- invariant

  /** What is written through arrives in order, without gaps. */
  predicate InOrder(f: Flow) {
    f.through + f.chunk <= f.sent
  }

  predicate Releasing(s: State) {
    && (s.once.Body? ==> AtRelease(s, s.once.who) && s.once.done <= 2)
    && s.past.bodies == (if s.once.NotRun? then 0 else 1)
    && s.past.cancels == (if s.res.readCancelled then 1 else 0)
    && (s.res.readCancelled <==> s.once.Ran? || (s.once.Body? && s.once.done >= 1))
    && (s.once.Ran? || (s.once.Body? && s.once.done >= 2) ==> s.res.sendClosed)
    && (s.once.Ran? ==> s.res.connClosed)
    && (s.res.connClosed ==> s.once.Ran? || s.faults.shutdown)
    && (s.goroutine.CloseDrained? || s.goroutine.Ended? ==> s.once.Ran?)
  }

  predicate Order(s: State) {
    && (s.drained <==> s.goroutine.Ended?)
    && (s.past.downEnded.None? <==> s.goroutine.CopyDown?)
    && (s.handler.DeferredRelease? || s.handler.Returned? ==> s.drained)
    && (s.handler.WaitDrained? ==> s.once.Ran?)
    && (s.handler.ReleaseError? ==> s.past.upFailed)
    && (s.handler.ReleaseGrace? ==> s.past.graceFired)
    && (s.handler.CopyUp? || s.handler.HalfClose? || s.handler.Await? ==> !s.past.upFailed && !s.past.graceFired)
    && (s.past.upFailed ==> !s.past.graceFired)
    && (s.res.sendClosed && s.once.NotRun? ==> !s.handler.CopyUp? && !s.past.upFailed)
    && (s.handler.Await? ==> s.res.sendClosed)
  }

  /** The client, the edge and the process have all behaved so far. */
  predicate Faultless(s: State) {
    s.faults == Faults(false, false, false)
  }

  /** While the edge is still being read, only the grace timer can start a release of its own accord. */
  predicate Blame(s: State) {
    && (s.goroutine.CopyDown? && Faultless(s) ==> !s.past.upFailed && (!s.once.NotRun? ==> s.past.graceFired))
    && (s.past.downEnded.Some? && s.past.downEnded != Some(EndOfStream) && Faultless(s) ==> s.past.graceFired)
  }

  predicate Complete(f: Flow) {
    f.finished && f.through == f.sent
  }

  predicate Completed(s: State) {
    && (s.past.downEnded == Some(EndOfStream) ==> Complete(s.down))
    && (!s.handler.CopyUp? && !s.past.upFailed ==> Complete(s.up))
  }

  predicate Inv(s: State) {
    InOrder(s.up) && InOrder(s.down) && Releasing(s) && Order(s) && Blame(s) && Completed(s)
  }

  lemma CopyKeepsOrder(f: Flow, n: nat)
    requires InOrder(f) && n <= |f.sent| - |f.through|
    ensures InOrder(AfterRead(f, n)) && InOrder(AfterWrite(f))
  {
  }

  lemma FlowsKept(s: State, a: Action)
    requires InOrder(s.up) && InOrder(s.down) && Enabled(s, a)
    ensures InOrder(After(s, a).up) && InOrder(After(s, a).down)
  {
    match a
    case Read(side, n) => CopyKeepsOrder(FlowOf(s, side), n);
    case Write(side) => CopyKeepsOrder(FlowOf(s, side), 0);
    case _ =>
  }

  lemma ReleasingKept(s: State, a: Action)
    requires Releasing(s) && Order(s) && Enabled(s, a)
    ensures Releasing(After(s, a))
  {
  }

  lemma OrderKept(s: State, a: Action)
    requires Releasing(s) && Order(s) && Enabled(s, a)
    ensures Order(After(s, a))
  {
  }

  lemma BlameKept(s: State, a: Action)
    requires Releasing(s) && Order(s) && Blame(s) && Enabled(s, a)
    ensures Blame(After(s, a))
  {
  }

  lemma CompletedKept(s: State, a: Action)
    requires InOrder(s.up) && InOrder(s.down) && Order(s) && Completed(s) && Enabled(s, a)
    ensures Completed(After(s, a))
  {
  }

  lemma InvKept(s: State, a: Action)
    requires Inv(s) && Enabled(s, a)
    ensures Inv(After(s, a))
  {
    FlowsKept(s, a);
    ReleasingKept(s, a);
    OrderKept(s, a);
    BlameKept(s, a);
    CompletedKept(s, a);
  }

  lemma {:induction false} RunKeepsInv(ss: seq<State>, acts: seq<Action>, i: nat)
    requires Run(ss, acts) && i < |ss|
    ensures Inv(ss[i])
  {
    if i > 0 {
      RunKeepsInv(ss, acts, i - 1);
      InvKept(ss[i - 1], acts[i - 1]);
    }
  }

  // ---------------------------------------------------------------- theorems

  /** The handler returns only after the edge's copy has ended and `drained` is closed, and by
      then the stream's read side was cancelled exactly once, both ends are closed and the body
      of release ran exactly once, whichever of its four callers came first. */
  lemma ReleasedExactlyOnce(ss: seq<State>, acts: seq<Action>, i: nat)
    requires Run(ss, acts) && i < |ss|
    ensures ss[i].past.bodies <= 1 && ss[i].past.cancels <= 1
    ensures ss[i].handler.Returned? ==>
              && ss[i].goroutine.Ended? && ss[i].past.downEnded.Some?
              && ss[i].past.bodies == 1 && ss[i].past.cancels == 1 && ss[i].once.Ran?
              && ss[i].res == Resources(true, true, true)
  {
    RunKeepsInv(ss, acts, i);
  }

  /** Nothing is reordered, repeated or invented in either direction; the copy from the edge
      ends at the end of the stream only with every byte delivered; and the send side is shut
      without a release only after everything the client sent was forwarded. */
  lemma BytesInOrder(ss: seq<State>, acts: seq<Action>, i: nat)
    requires Run(ss, acts) && i < |ss|
    ensures ss[i].up.through <= ss[i].up.sent && ss[i].down.through <= ss[i].down.sent
    ensures ss[i].past.downEnded == Some(EndOfStream) ==> Complete(ss[i].down)
    ensures ss[i].res.sendClosed && ss[i].once.NotRun? ==> Complete(ss[i].up)
  {
    RunKeepsInv(ss, acts, i);
  }

  /** While the handler awaits the response the client has finished, everything it sent was
      forwarded, and the send side is shut, so that the edge knows. */
  lemma TheEdgeIsTold(ss: seq<State>, acts: seq<Action>, i: nat)
    requires Run(ss, acts) && i < |ss| && ss[i].handler.Await?
    ensures ss[i].res.sendClosed && ss[i].up.finished && ss[i].up.through == ss[i].up.sent
  {
    RunKeepsInv(ss, acts, i);
  }

  function Ticks(acts: seq<Action>, i: nat): nat
    requires i <= |acts|
  {
    if i == 0 then 0 else Ticks(acts, i - 1) + (if acts[i - 1].Tick? then 1 else 0)
  }

  /** Ticks are counted from the moment the handler begins to await. */
  predicate Counted(pc: HandlerPc, ticks: nat) {
    match pc
    case CopyUp => ticks == 0
    case HalfClose => ticks == 0
    case Await(left) => ticks + left == 30
    case _ => true
  }

  lemma {:induction false} TicksAreCounted(ss: seq<State>, acts: seq<Action>, i: nat)
    requires Run(ss, acts) && i < |ss|
    ensures Counted(ss[i].handler, Ticks(acts, i))
  {
    if i > 0 {
      TicksAreCounted(ss, acts, i - 1);
      CountedNext(ss[i - 1], acts[i - 1], Ticks(acts, i - 1));
    }
  }

  lemma CountedNext(s: State, a: Action, ticks: nat)
    requires Counted(s.handler, ticks) && Enabled(s, a)
    ensures Counted(After(s, a).handler, ticks + if a.Tick? then 1 else 0)
  {
  }

  /** The timer fires only after thirty seconds of waiting. */
  lemma TheGraceIsThirty(ss: seq<State>, acts: seq<Action>, i: nat)
    requires Run(ss, acts) && i < |acts| && acts[i].GraceFires?
    ensures Ticks(acts, i) == 30
  {
    TicksAreCounted(ss, acts, i);
    assert Enabled(ss[i], acts[i]);
  }

  /** With no failure at either end and no shutdown, the reply is cut short only when the grace
      timer fired, and that only after a clean half-close with everything the client sent
      forwarded: an edge that finishes within the grace has all its bytes delivered. */
  lemma OnlyTheGraceCutsAReply(ss: seq<State>, acts: seq<Action>, i: nat)
    requires Run(ss, acts) && i < |ss| && ss[i].handler.Returned? && Faultless(ss[i])
    ensures ss[i].past.graceFired || Complete(ss[i].down)
    ensures ss[i].past.graceFired ==> Complete(ss[i].up)
  {
    RunKeepsInv(ss, acts, i);
  }

  // ---------------------------------------------------------------- termination

  function HandlerRank(pc: HandlerPc): nat {
    match pc
    case CopyUp => GRACE + 6
    case HalfClose => GRACE + 5
    case Await(left) => left + 4
    case ReleaseError => 3
    case ReleaseGrace => 3
    case WaitDrained => 2
    case DeferredRelease => 1
    case Returned => 0
  }

  function GoroutineRank(pc: GoroutinePc): nat {
    match pc
    case CopyDown => 3
    case ReleaseDown => 2
    case CloseDrained => 1
    case Ended => 0
  }

  function OnceRank(once: Once): nat {
    match once
    case NotRun => 4
    case Body(_, done) => if done <= 2 then 3 - done else 1
    case Ran => 0
  }

  function Rank(s: State): nat {
    HandlerRank(s.handler) + GoroutineRank(s.goroutine) + OnceRank(s.once)
  }

  /** Every control step uses up rank; copying and the outside world never add any. */
  lemma RankFalls(s: State, a: Action)
    requires Inv(s) && Enabled(s, a)
    ensures if Control(a) then Rank(After(s, a)) < Rank(s) else Rank(After(s, a)) == Rank(s)
  {
  }

  function ControlSteps(acts: seq<Action>): nat {
    if acts == [] then 0 else ControlSteps(acts[..|acts| - 1]) + (if Control(acts[|acts| - 1]) then 1 else 0)
  }

  /** So a whole connection takes a bounded number of them, however much is copied. */
  lemma {:induction false} ControlIsBounded(ss: seq<State>, acts: seq<Action>)
    requires Run(ss, acts)
    ensures ControlSteps(acts) + Rank(ss[|acts|]) <= GRACE + 13
  {
    if acts != [] {
      var n := |acts| - 1;
      ControlIsBounded(ss[..n + 1], acts[..n]);
      RunKeepsInv(ss, acts, n);
      RankFalls(ss[n], acts[n]);
    }
  }

  /** Something has happened that must bring the connection down: either end has finished or
      broken, the process is shutting down, or one of the copies has already ended. */
  predicate ComingDown(s: State) {
    || !s.handler.CopyUp? || !s.goroutine.CopyDown? || s.res.connClosed
    || Settled(s, Handler) || Settled(s, Goroutine)
  }

  /** A direction in which only what is there already can still be copied. */
  predicate Draining(s: State, side: Side) {
    Settled(s, side) || !CanRead(s, side)
  }

  /** A step towards the end: control, or copying what is left of a draining direction. */
  predicate Progress(s: State, a: Action) {
    Control(a) || ((a.Read? || a.Write?) && Draining(s, a.side))
  }

  function Backlog(f: Flow): int {
    2 * (|f.sent| - |f.through|) - |f.chunk|
  }

  lemma CopyingShrinks(f: Flow, n: nat)
    requires InOrder(f)
    ensures f.chunk == [] && 0 < n <= |f.sent| - |f.through| ==> Backlog(AfterRead(f, n)) < Backlog(f)
    ensures f.chunk != [] ==> Backlog(AfterWrite(f)) < Backlog(f) && |AfterWrite(f).chunk| < |f.chunk|
  {
  }

  /** What is left to copy in a draining direction. Reading a byte and writing it count one each;
      where reading fails already, only the chunk in hand counts. */
  function Owed(s: State, side: Side): int {
    var f := FlowOf(s, side);
    if !CanRead(s, side) then |f.chunk|
    else if Settled(s, side) then Backlog(f)
    else 0
  }

  function Left(s: State): int {
    Owed(s, Handler) + Owed(s, Goroutine)
  }

  lemma OwedIsNatural(s: State, side: Side)
    requires InOrder(FlowOf(s, side))
    ensures 0 <= Owed(s, side)
  {
  }

  /** The measure falls with every step towards the end, lexicographically; copying in a direction
      that is not draining leaves it alone, and of what the world does only finishing, breaking
      and shutting down, which happen once each, can raise its second part. */
  lemma MeasureFalls(s: State, a: Action)
    requires Inv(s) && Enabled(s, a)
    ensures 0 <= Left(s)
    ensures Progress(s, a) ==>
              Rank(After(s, a)) < Rank(s) || (Rank(After(s, a)) == Rank(s) && Left(After(s, a)) < Left(s))
    ensures !Progress(s, a) ==> Rank(After(s, a)) == Rank(s)
    ensures a.Read? || a.Write? || (a.World? && a.event.Writes?) ==> Left(After(s, a)) <= Left(s)
  {
    OwedIsNatural(s, Handler);
    OwedIsNatural(s, Goroutine);
    RankFalls(s, a);
    if a.Read? || a.Write? { CopyOwesLess(s, a); }
  }

  lemma CopyOwesLess(s: State, a: Action)
    requires InOrder(FlowOf(s, Handler)) && InOrder(FlowOf(s, Goroutine)) && Enabled(s, a) && (a.Read? || a.Write?)
    ensures Left(After(s, a)) <= Left(s) && (Draining(s, a.side) ==> Left(After(s, a)) < Left(s))
  {
    CopyingShrinks(FlowOf(s, a.side), if a.Read? then a.n else 0);
  }

  function CopyStep(s: State, side: Side): Action {
    var f := FlowOf(s, side);
    if f.chunk != [] && CanWrite(s, side) then Write(side)
    else if f.chunk == [] && CanRead(s, side) && |f.through| < |f.sent| then Read(side, 1)
    else if side == Handler then UpEnds(!(AtEnd(f) && CanRead(s, side)))
    else DownEnds(if f.chunk != [] then WriteFailed else if AtEnd(f) && CanRead(s, side) then EndOfStream
                  else ReadFailed)
  }

  function WayOut(s: State): Action {
    if s.once.Body? then Release(s.once.who)
    else if s.goroutine.ReleaseDown? then Release(Goroutine)
    else if s.goroutine.CloseDrained? then SignalDrained
    else if s.goroutine.CopyDown? && Draining(s, Goroutine) then CopyStep(s, Goroutine)
    else match s.handler
      case CopyUp => CopyStep(s, Handler)
      case HalfClose => CloseSend
      case Await(left) => if left > 0 then Tick else GraceFires
      case WaitDrained => SeeDrained
      case _ => Release(Handler)
  }

  lemma CopyStepIsOpen(s: State, side: Side)
    requires InOrder(FlowOf(s, side)) && Copying(s, side) && Draining(s, side)
    ensures Enabled(s, CopyStep(s, side)) && Progress(s, CopyStep(s, side))
  {
    var f := FlowOf(s, side);
    assert |f.through| + |f.chunk| <= |f.sent|;
  }

  /** And until the handler has returned there is always such a step to take, whatever either end
      does: every wait ends. */
  lemma AlwaysAWayOut(s: State)
    requires Inv(s) && ComingDown(s) && !s.handler.Returned?
    ensures Enabled(s, WayOut(s)) && Progress(s, WayOut(s))
  {
    if s.goroutine.CopyDown? && Draining(s, Goroutine) { CopyStepIsOpen(s, Goroutine); }
    if s.handler.CopyUp? && Draining(s, Handler) { CopyStepIsOpen(s, Handler); }
  }
}
