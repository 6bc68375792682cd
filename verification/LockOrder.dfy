/** The locks and waits of the HTTP/3 client (tunnel/masque.go), for any number of threads that
    look names up, open streams, reconnect and close. Every Lock, RLock and Unlock is a step of
    its own, calls are followed into each other, and where the data decides a branch every
    branch is possible. Dials, exchanges, pings and teardowns are assumed to return. */
module LockOrder {
  import opened Basics

  type Tid = nat
  type Flight = nat

  /** The four locks under which nothing else is ever locked or waited for. */
  datatype Leaf = ConnMu | DohMu | CacheMu | NameMu
  datatype Mode = Read | Write
  datatype Need = Need(leaf: Leaf, mode: Mode)

  datatype Label =
    | Start
    // resolveDNS, once per lookup
    | CacheGet         // :782
    | Enter            // :791
    | NameWait         // :794
    | CachePut         // :762
    | NameSignal       // :837
    | Clean            // :840
    // dohConnection
    | Live             // :1004
    | LiveClose        // :1018
    | Claim            // :930
    | DohWait          // :933
    | Exchange         // :1067
    | FirstCheck       // :959
    | DialDrop         // :960
    | Publish          // :964
    | Signal           // :971
    | SecondCheck      // :979
    | Undo             // :1042
    | UndoClose        // :1050
    // dnsQuery and its two goroutines
    | Spawn            // :1149
    | Collect          // :1163
    | Ask              // :1226
    | Retire           // :1042
    | RetireClose      // :1050
    | Send             // :1151
    // openRequestStream and reconnect
    | First            // :339
    | Open             // :376
    | RcLock           // :399
    | RcCheck          // :339
    | RcDial           // :412
    | RcInstall        // :417
    | RcDrop           // :420
    | RcTear           // :427
    | RcInvalidate     // :1042
    | RcInvalidateClose // :1050
    | RcUnlock         // :400
    | Second           // :339
    | Reopen           // :368, :395
    | Opened           // the return of openRequestStream
    // Close
    | OnceEnter        // :1300
    | OnceWait         // :1300
    | ShutInvalidate   // :1042
    | ShutClose        // :1050
    | ShutSet          // :1303
    | ShutTear         // :1308
    | OnceExit
    | Done

  /** The leaf lock under which the step at a label runs. */
  function Needs(l: Label): Option<Need> {
    match l
    case CacheGet => Some(Need(CacheMu, Read))
    case CachePut => Some(Need(CacheMu, Write))
    case Enter => Some(Need(NameMu, Write))
    case Clean => Some(Need(NameMu, Write))
    case Live => Some(Need(DohMu, Write))
    case Claim => Some(Need(DohMu, Write))
    case Publish => Some(Need(DohMu, Write))
    case Undo => Some(Need(DohMu, Write))
    case Retire => Some(Need(DohMu, Write))
    case RcInvalidate => Some(Need(DohMu, Write))
    case ShutInvalidate => Some(Need(DohMu, Write))
    case FirstCheck => Some(Need(ConnMu, Read))
    case SecondCheck => Some(Need(ConnMu, Read))
    case First => Some(Need(ConnMu, Read))
    case Second => Some(Need(ConnMu, Read))
    case RcCheck => Some(Need(ConnMu, Read))
    case RcInstall => Some(Need(ConnMu, Write))
    case ShutSet => Some(Need(ConnMu, Write))
    case _ => None
  }

  /** openRequestStream is called by a connection handler and by a DoH dial. */
  datatype Caller = Handler | Dialer

  /** Which labels can follow; the branch taken depends on data and on what the network does. */
  predicate Follows(l: Label, caller: Caller, to: Label) {
    match l
    case Start => to.CacheGet? || to.First? || to.OnceEnter?
    case CacheGet => to.Done? || to.Enter?
    case Enter => to.NameWait? || to.Live?
    case NameWait => to.Done?
    case CachePut => to.NameSignal?
    case NameSignal => to.Clean?
    case Clean => to.Done?
    case Live => to.Spawn? || to.LiveClose? || to.Claim?
    case LiveClose => to.Claim?
    case Claim => to.DohWait? || to.First?
    case DohWait => to.Live? || to.NameSignal?
    case Exchange => to.FirstCheck? || to.First? || to.Publish?
    case FirstCheck => to.DialDrop? || to.Publish?
    case DialDrop => to.Publish?
    case Publish => to.Signal?
    case Signal => to.SecondCheck? || to.NameSignal?
    case SecondCheck => to.Undo? || to.Spawn?
    case Undo => to.UndoClose? || to.NameSignal?
    case UndoClose => to.NameSignal?
    case Spawn => to.Collect?
    case Collect => to.Collect? || to.CachePut? || to.Live? || to.NameSignal?
    case Ask => to.Retire? || to.Send?
    case Retire => to.RetireClose? || to.Send?
    case RetireClose => to.Send?
    case Send => to.Done?
    case First => to.Open? || to.RcLock?
    case Open => to.Opened? || to.RcLock?
    case RcLock => to.RcCheck?
    case RcCheck => to.RcDial? || to.RcUnlock?
    case RcDial => to.RcInstall? || to.RcUnlock?
    case RcInstall => to.RcDrop? || to.RcTear?
    case RcDrop => to.RcUnlock?
    case RcTear => to.RcInvalidate?
    case RcInvalidate => to.RcInvalidateClose? || to.RcUnlock?
    case RcInvalidateClose => to.RcUnlock?
    case RcUnlock => to.Second? || to.Opened?
    case Second => to.Reopen? || to.Opened?
    case Reopen => to.Opened?
    case Opened => if caller == Handler then to.Done? else to.Exchange? || to.First? || to.Publish?
    case OnceEnter => to.ShutInvalidate? || to.OnceWait? || to.Done?
    case OnceWait => to.Done?
    case ShutInvalidate => to.ShutClose? || to.ShutSet?
    case ShutClose => to.ShutSet?
    case ShutSet => to.ShutTear?
    case ShutTear => to.OnceExit?
    case OnceExit => to.Done?
    case Done => false
  }

  // ---------------------------------------------------------------- the machine

  /** A thread: where it is, the leaf lock it holds, on whose behalf it opens a stream, the flights
      it leads, owns and waits for, and the query goroutines whose results it has still to collect. */
  datatype Thread = Thread(pc: Label, held: Option<Need>, caller: Caller, leads: Option<Flight>, owns: Option<Flight>,
                           waits: Option<Flight>, children: set<Tid>)

  const IDLE: Thread := Thread(Start, None, Handler, None, None, None, {})

  datatype Lock = Lock(writer: Option<Tid>, readers: set<Tid>)

  datatype Once = NotRun | Running(t: Tid) | Ran

  /** Flights are numbered; each has the thread that will finish it. */
  datatype Registry = Registry(leaders: seq<Tid>, nameDone: set<Flight>, owners: seq<Tid>, dohDone: set<Flight>)

  datatype State = State(locks: map<Leaf, Lock>, rc: Option<Tid>, once: Once, flights: Registry, threads: map<Tid,
                         Thread>)

  function At(threads: map<Tid, Thread>, t: Tid): Thread {
    if t in threads then threads[t] else IDLE
  }

  function Set(threads: map<Tid, Thread>, t: Tid, th: Thread): (r: map<Tid, Thread>)
    ensures forall u: Tid {:trigger At(r, u)} :: At(r, u) == if u == t then th else At(threads, u)
  {
    threads[t := th]
  }

  function LockOf(locks: map<Leaf, Lock>, leaf: Leaf): Lock {
    if leaf in locks then locks[leaf] else Lock(None, {})
  }

  function SetLock(locks: map<Leaf, Lock>, leaf: Leaf, lock: Lock): (r: map<Leaf, Lock>)
    ensures forall l {:trigger LockOf(r, l)} :: LockOf(r, l) == if l == leaf then lock else LockOf(locks, l)
  {
    locks[leaf := lock]
  }

  predicate Init(s: State) {
    s == State(map[], None, NotRun, Registry([], {}, [], {}), map[])
  }

  /** Taking a leaf lock; giving up a wait because the caller's context is done; or any other
      step, with where it goes and, where there is a choice, the flight it joins, the goroutine
      whose result it collects or the identity of the goroutines it starts. */
  datatype Action =
    | Acquire(t: Tid)
    | GiveUp(t: Tid)
    | Step(t: Tid, to: Label, pick: nat)

  function Acquired(lock: Lock, mode: Mode, t: Tid): Lock {
    if mode == Write then lock.(writer := Some(t)) else lock.(readers := lock.readers + {t})
  }

  function Released(lock: Lock, mode: Mode, t: Tid): Lock {
    if mode == Write then lock.(writer := None) else lock.(readers := lock.readers - {t})
  }

  /** A writer needs the lock to itself; a reader needs there to be no writer. */
  predicate Free(lock: Lock, mode: Mode) {
    lock.writer.None? && (mode == Write ==> lock.readers == {})
  }

  function AfterRelease(s: State, t: Tid): map<Leaf, Lock> {
    match At(s.threads, t).held
    case Some(n) => SetLock(s.locks, n.leaf, Released(LockOf(s.locks, n.leaf), n.mode, t))
    case None => s.locks
  }

  /** The waits of a step, other than for its leaf lock. */
  predicate Ready(s: State, t: Tid, to: Label, pick: nat) {
    var th := At(s.threads, t);
    match th.pc
    case RcLock => s.rc.None?
    case NameWait => th.waits.Some? && th.waits.value in s.flights.nameDone
    case DohWait => th.waits.Some? && th.waits.value in s.flights.dohDone
    case Collect => pick in th.children && At(s.threads, pick).pc.Done? && (to.Collect? ==> th.children != {pick})
    case Enter => to.NameWait? ==> pick < |s.flights.leaders|
    case Claim => to.DohWait? ==> pick < |s.flights.owners|
    case Spawn => pick !in s.threads && pick + 1 !in s.threads && pick != t && pick + 1 != t
    case OnceEnter => if s.once.NotRun? then to.ShutInvalidate? else if s.once.Ran? then to.Done? else to.OnceWait?
    case OnceWait => s.once.Ran?
    case _ => true
  }

  /** The thread itself after a step. */
  function Moved(fl: Registry, th: Thread, to: Label, pick: nat): Thread {
    var at := th.(pc := to, held := None);
    match th.pc
    case Start => at.(caller := Handler)
    case Enter => if to.NameWait? then at.(waits := Some(pick)) else at.(leads := Some(|fl.leaders|))
    case Claim => if to.DohWait? then at.(waits := Some(pick)) else at.(owns := Some(|fl.owners|), caller := Dialer)
    case NameWait => at.(waits := None)
    case DohWait => at.(waits := None)
    case Signal => at.(owns := None)
    case NameSignal => at.(leads := None)
    case Spawn => at.(children := {pick, pick + 1})
    case Collect => at.(children := if to.Collect? then th.children - {pick} else {})
    case _ => at
  }

  /** The flights after a step: registered by Enter and Claim, finished by the two signals. */
  function Registered(fl: Registry, th: Thread, t: Tid, to: Label): Registry {
    match th.pc
    case Enter => if to.Live? then fl.(leaders := fl.leaders + [t]) else fl
    case Claim => if to.First? then fl.(owners := fl.owners + [t]) else fl
    case NameSignal => if th.leads.Some? then fl.(nameDone := fl.nameDone + {th.leads.value}) else fl
    case Signal => if th.owns.Some? then fl.(dohDone := fl.dohDone + {th.owns.value}) else fl
    case _ => fl
  }

  /** A query goroutine begins. */
  function Started(threads: map<Tid, Thread>, c: Tid): map<Tid, Thread> {
    Set(threads, c, IDLE.(pc := Ask))
  }

  predicate Next(s: State, a: Action, s': State) {
    var th := At(s.threads, a.t);
    match a
    case Acquire(t) =>
      Needs(th.pc).Some? && th.held.None? && Free(LockOf(s.locks, Needs(th.pc).value.leaf), Needs(th.pc).value.mode)
      && (var n := Needs(th.pc).value;
          s' == s.(locks := SetLock(s.locks, n.leaf, Acquired(LockOf(s.locks, n.leaf), n.mode, t)),
                   threads := Set(s.threads, t, th.(held := Some(n)))))
    case GiveUp(t) =>
      (th.pc.NameWait? || th.pc.DohWait?)
      && s' == s.(threads := Set(s.threads, t, th.(pc := if th.pc.NameWait? then Done else NameSignal, waits := None)))
    case Step(t, to, pick) =>
      th.held == Needs(th.pc) && Follows(th.pc, th.caller, to) && Ready(s, t, to, pick)
      && (var others := if th.pc.Spawn? then Started(Started(s.threads, pick), pick + 1) else s.threads;
          s' == s.(locks := AfterRelease(s, t),
                   rc := if th.pc.RcLock? then Some(t) else if th.pc.RcUnlock? then None else s.rc,
                   once := if th.pc.OnceEnter? && to.ShutInvalidate? then Running(t) else if th.pc.OnceExit? then Ran
                       else s.once,
                   flights := Registered(s.flights, th, t, to),
                   threads := Set(others, t, Moved(s.flights, th, to, pick))))
  }

  // ---------------------------------------------------------------- invariant

  /** The part of the protocol a label belongs to. */
  datatype Phase = Outside | Finding | OpeningStream | Reconnecting | EndingDial | Asking | InGoroutine | Closing

  function PhaseOf(l: Label): Phase {
    match l
    case Live => Finding
    case LiveClose => Finding
    case Claim => Finding
    case DohWait => Finding
    case First => OpeningStream
    case Open => OpeningStream
    case RcLock => OpeningStream
    case Second => OpeningStream
    case Reopen => OpeningStream
    case Opened => OpeningStream
    case RcCheck => Reconnecting
    case RcDial => Reconnecting
    case RcInstall => Reconnecting
    case RcDrop => Reconnecting
    case RcTear => Reconnecting
    case RcInvalidate => Reconnecting
    case RcInvalidateClose => Reconnecting
    case RcUnlock => Reconnecting
    case Exchange => EndingDial
    case FirstCheck => EndingDial
    case DialDrop => EndingDial
    case Publish => EndingDial
    case Signal => EndingDial
    case SecondCheck => Asking
    case Undo => Asking
    case UndoClose => Asking
    case Spawn => Asking
    case Collect => Asking
    case CachePut => Asking
    case NameSignal => Asking
    case Ask => InGoroutine
    case Retire => InGoroutine
    case RetireClose => InGoroutine
    case Send => InGoroutine
    case Done => InGoroutine
    case ShutInvalidate => Closing
    case ShutClose => Closing
    case ShutSet => Closing
    case ShutTear => Closing
    case OnceExit => Closing
    case _ => Outside
  }

  predicate HoldsReconnect(l: Label) {
    PhaseOf(l) == Reconnecting
  }

  /** Inside openRequestStream. */
  predicate Opening(l: Label) {
    PhaseOf(l) == OpeningStream || PhaseOf(l) == Reconnecting
  }

  /** Between registering a DoH dial and closing its channel. */
  predicate OwningDial(th: Thread) {
    (Opening(th.pc) && th.caller == Dialer) || PhaseOf(th.pc) == EndingDial
  }

  /** Between registering a name's flight and closing its channel. */
  predicate LeadingName(th: Thread) {
    PhaseOf(th.pc) == Finding || OwningDial(th) || PhaseOf(th.pc) == Asking
  }

  /** A query goroutine, until and after it is done. */
  predicate Goroutine(l: Label) {
    PhaseOf(l) == InGoroutine
  }

  predicate RunningClose(l: Label) {
    PhaseOf(l) == Closing
  }

  predicate Shape(th: Thread) {
    && (th.held.Some? ==> th.held == Needs(th.pc))
    && (th.leads.Some? <==> LeadingName(th))
    && (th.owns.Some? <==> OwningDial(th))
    && (th.waits.Some? <==> th.pc.NameWait? || th.pc.DohWait?)
    && (th.children != {} <==> th.pc.Collect?)
    && (th.pc.Start? ==> th == IDLE)
    && (th.pc.Exchange? ==> th.caller == Dialer)
  }

  ghost predicate Shapes(s: State) {
    forall t: Tid :: Shape(At(s.threads, t))
  }

  predicate HeldBy(lock: Lock, mode: Mode, t: Tid) {
    if mode == Write then lock.writer == Some(t) else t in lock.readers
  }

  /** Leaf locks are held by exactly the threads inside a section. */
  ghost predicate Locks(s: State) {
    && (forall l {:trigger LockOf(s.locks, l)} :: LockOf(s.locks, l).writer.Some? ==>
          At(s.threads, LockOf(s.locks, l).writer.value).held == Some(Need(l, Write)))
    && (forall l, t: Tid {:trigger t in LockOf(s.locks, l).readers} :: t in LockOf(s.locks, l).readers ==>
          At(s.threads, t).held == Some(Need(l, Read)))
    && (forall t: Tid {:trigger At(s.threads, t)} :: At(s.threads, t).held.Some? ==>
          HeldBy(LockOf(s.locks, At(s.threads, t).held.value.leaf), At(s.threads, t).held.value.mode, t))
  }

  ghost predicate Reconnects(s: State) {
    forall t: Tid :: s.rc == Some(t) <==> HoldsReconnect(At(s.threads, t).pc)
  }

  ghost predicate Closes(s: State) {
    && (forall t: Tid :: s.once == Running(t) <==> RunningClose(At(s.threads, t).pc))
    && (forall t: Tid :: At(s.threads, t).pc.OnceWait? ==> !s.once.NotRun?)
  }

  /** Every flight that is not done is in the hands of its leader or owner. */
  ghost predicate Flights(s: State) {
    && (forall f: Flight :: f < |s.flights.leaders| && f !in s.flights.nameDone ==>
        At(s.threads, s.flights.leaders[f]).leads == Some(f))
    && (forall f: Flight :: f < |s.flights.owners| && f !in s.flights.dohDone ==>
        At(s.threads, s.flights.owners[f]).owns == Some(f))
    && (forall t: Tid :: At(s.threads, t).pc.NameWait? ==>
          At(s.threads, t).waits.Some? && At(s.threads, t).waits.value < |s.flights.leaders|)
    && (forall t: Tid :: At(s.threads, t).pc.DohWait? ==>
          At(s.threads, t).waits.Some? && At(s.threads, t).waits.value < |s.flights.owners|)
  }

  ghost predicate Children(s: State) {
    forall t: Tid, c: Tid :: c in At(s.threads, t).children ==> Goroutine(At(s.threads, c).pc)
  }

  ghost predicate Inv(s: State) {
    Shapes(s) && Locks(s) && Reconnects(s) && Closes(s) && Flights(s) && Children(s)
  }

  lemma InitKeeps(s: State)
    requires Init(s)
    ensures Inv(s)
  {
  }

  // ---------------------------------------------------------------- preservation

  /** A step moves one thread; only Spawn starts others. */
  ghost predicate OthersSame(s: State, s': State, t: Tid) {
    forall u: Tid {:trigger At(s'.threads, u)} :: u != t ==> At(s'.threads, u) == At(s.threads, u)
  }

  predicate Spawns(s: State, a: Action) {
    a.Step? && At(s.threads, a.t).pc.Spawn?
  }

  lemma OthersStay(s: State, a: Action, s': State)
    requires Next(s, a, s') && !Spawns(s, a)
    ensures OthersSame(s, s', a.t)
  {
  }

  /** What a step does to its own thread, in terms of that thread alone. */
  lemma StepMoves(s: State, a: Action, s': State)
    requires Next(s, a, s') && !Spawns(s, a)
    ensures var th, th' := At(s.threads, a.t), At(s'.threads, a.t);
            match a
            case Acquire(_) => Needs(th.pc).Some? && th.held.None? && th' == th.(held := Needs(th.pc))
            case GiveUp(_) =>
              (th.pc.NameWait? || th.pc.DohWait?)
                  && th' == th.(pc := if th.pc.NameWait? then Done else NameSignal, waits := None)
            case Step(_, to, pick) =>
              th.held == Needs(th.pc) && Follows(th.pc, th.caller, to) && Ready(s, a.t, to, pick) && !th.pc.Spawn?
              && th' == Moved(s.flights, th, to, pick)
  {
  }

  predicate Starts(l: Label) {
    l.Start? || l.OnceEnter? || l.OnceWait?
  }

  lemma ShapeMovedLooking(fl: Registry, th: Thread, to: Label, pick: nat)
    requires Shape(th) && Follows(th.pc, th.caller, to) && PhaseOf(th.pc) == Outside && !Starts(th.pc)
    ensures Shape(Moved(fl, th, to, pick))
  {
  }

  lemma ShapeMovedStarting(fl: Registry, th: Thread, to: Label, pick: nat)
    requires Shape(th) && Follows(th.pc, th.caller, to) && Starts(th.pc)
    ensures Shape(Moved(fl, th, to, pick))
  {
  }

  lemma ShapeMovedFinding(fl: Registry, th: Thread, to: Label, pick: nat)
    requires Shape(th) && Follows(th.pc, th.caller, to) && PhaseOf(th.pc) == Finding
    ensures Shape(Moved(fl, th, to, pick))
  {
  }

  lemma ShapeMovedOpening(fl: Registry, th: Thread, to: Label, pick: nat)
    requires Shape(th) && Follows(th.pc, th.caller, to) && PhaseOf(th.pc) == OpeningStream
    ensures Shape(Moved(fl, th, to, pick))
  {
  }

  lemma ShapeMovedReconnecting(fl: Registry, th: Thread, to: Label, pick: nat)
    requires Shape(th) && Follows(th.pc, th.caller, to) && PhaseOf(th.pc) == Reconnecting
    ensures Shape(Moved(fl, th, to, pick))
  {
  }

  lemma ShapeMovedEndingDial(fl: Registry, th: Thread, to: Label, pick: nat)
    requires Shape(th) && Follows(th.pc, th.caller, to) && PhaseOf(th.pc) == EndingDial
    ensures Shape(Moved(fl, th, to, pick))
  {
  }

  lemma ShapeMovedAsking(fl: Registry, th: Thread, to: Label, pick: nat)
    requires Shape(th) && Follows(th.pc, th.caller, to) && PhaseOf(th.pc) == Asking && !th.pc.Spawn?
    requires th.pc.Collect? && to.Collect? ==> th.children - {pick} != {}
    ensures Shape(Moved(fl, th, to, pick))
  {
  }

  lemma ShapeMovedGoroutine(fl: Registry, th: Thread, to: Label, pick: nat)
    requires Shape(th) && Follows(th.pc, th.caller, to) && PhaseOf(th.pc) == InGoroutine
    ensures Shape(Moved(fl, th, to, pick))
  {
  }

  lemma ShapeMovedClosing(fl: Registry, th: Thread, to: Label, pick: nat)
    requires Shape(th) && Follows(th.pc, th.caller, to) && PhaseOf(th.pc) == Closing
    ensures Shape(Moved(fl, th, to, pick))
  {
  }

  lemma OwnShape(s: State, a: Action, s': State)
    requires Next(s, a, s') && Shape(At(s.threads, a.t)) && !Spawns(s, a)
    ensures Shape(At(s'.threads, a.t))
  {
    StepMoves(s, a, s');
    if a.Step? { ShapeMoved(s, a.t, a.to, a.pick); }
  }

  lemma ShapeMoved(s: State, t: Tid, to: Label, pick: nat)
    requires var th := At(s.threads, t);
             Shape(th) && Follows(th.pc, th.caller, to) && Ready(s, t, to, pick) && !th.pc.Spawn?
    ensures Shape(Moved(s.flights, At(s.threads, t), to, pick))
  {
    var th := At(s.threads, t);
    match PhaseOf(th.pc)
    case Outside =>
      if Starts(th.pc) { ShapeMovedStarting(s.flights, th, to, pick); }
          else { ShapeMovedLooking(s.flights, th, to, pick); }
    case Finding => ShapeMovedFinding(s.flights, th, to, pick);
    case OpeningStream => ShapeMovedOpening(s.flights, th, to, pick);
    case Reconnecting => ShapeMovedReconnecting(s.flights, th, to, pick);
    case EndingDial => ShapeMovedEndingDial(s.flights, th, to, pick);
    case Asking =>
      if th.pc.Collect? && to.Collect? { assert th.children - {pick} != {}; }
      ShapeMovedAsking(s.flights, th, to, pick);
    case InGoroutine => ShapeMovedGoroutine(s.flights, th, to, pick);
    case Closing => ShapeMovedClosing(s.flights, th, to, pick);
  }

  lemma ShapesFrame(s: State, s': State, t: Tid)
    requires Shapes(s) && OthersSame(s, s', t) && Shape(At(s'.threads, t))
    ensures Shapes(s')
  {
  }

  lemma LocksFrame(s: State, s': State, t: Tid)
    requires Locks(s) && OthersSame(s, s', t)
    requires s'.locks == s.locks && At(s'.threads, t).held.None? && At(s.threads, t).held.None?
    ensures Locks(s')
  {
  }

  lemma LocksAfterAcquire(s: State, t: Tid, s': State)
    requires Locks(s) && Next(s, Acquire(t), s')
    ensures Locks(s')
  {
  }

  lemma LocksAfterRelease(s: State, s': State, t: Tid)
    requires Locks(s) && OthersSame(s, s', t) && At(s.threads, t).held.Some?
    requires s'.locks == AfterRelease(s, t) && At(s'.threads, t).held.None?
    ensures Locks(s')
  {
  }

  /** How a step can enter and leave the parts that hold reconnectMu and run Close. */
  lemma ReconnectMoves(th: Thread, to: Label)
    requires Follows(th.pc, th.caller, to)
    ensures HoldsReconnect(to) <==> th.pc.RcLock? || (HoldsReconnect(th.pc) && !th.pc.RcUnlock?)
  {
  }

  lemma CloseMovesOn(th: Thread, to: Label)
    requires Follows(th.pc, th.caller, to)
    ensures RunningClose(to) <==> (th.pc.OnceEnter? && to.ShutInvalidate?) || (RunningClose(th.pc) && !th.pc.OnceExit?)
    ensures to.OnceWait? ==> th.pc.OnceEnter?
  {
  }

  /** reconnectMu and the run of Close's body move with their thread. */
  lemma OwnReconnect(s: State, a: Action, s': State)
    requires Next(s, a, s') && !Spawns(s, a)
    requires s.rc == Some(a.t) <==> HoldsReconnect(At(s.threads, a.t).pc)
    ensures s'.rc == Some(a.t) <==> HoldsReconnect(At(s'.threads, a.t).pc)
    ensures s'.rc == s.rc || (s.rc.None? && s'.rc == Some(a.t)) || (s.rc == Some(a.t) && s'.rc.None?)
  {
    StepMoves(s, a, s');
    if a.Step? { ReconnectMoves(At(s.threads, a.t), a.to); }
  }

  lemma OwnOnce(s: State, a: Action, s': State)
    requires Next(s, a, s') && !Spawns(s, a)
    requires s.once == Running(a.t) <==> RunningClose(At(s.threads, a.t).pc)
    requires At(s.threads, a.t).pc.OnceWait? ==> !s.once.NotRun?
    ensures s'.once == Running(a.t) <==> RunningClose(At(s'.threads, a.t).pc)
    ensures At(s'.threads, a.t).pc.OnceWait? ==> !s'.once.NotRun?
    ensures s'.once == s.once || (s.once.NotRun? && s'.once == Running(a.t)) || (s.once == Running(a.t) && s'.once.Ran?)
  {
    StepMoves(s, a, s');
    if a.Step? { CloseMovesOn(At(s.threads, a.t), a.to); }
  }

  lemma ControlFrame(s: State, s': State, t: Tid)
    requires Reconnects(s) && Closes(s) && OthersSame(s, s', t)
    requires s'.rc == Some(t) <==> HoldsReconnect(At(s'.threads, t).pc)
    requires s'.once == Running(t) <==> RunningClose(At(s'.threads, t).pc)
    requires At(s'.threads, t).pc.OnceWait? ==> !s'.once.NotRun?
    requires s'.rc == s.rc || (s.rc.None? && s'.rc == Some(t)) || (s.rc == Some(t) && s'.rc.None?)
    requires s'.once == s.once || (s.once.NotRun? && s'.once == Running(t)) || (s.once == Running(t) && s'.once.Ran?)
    ensures Reconnects(s') && Closes(s')
  {
  }

  /** How a step changes the flights: at most one is registered by the thread or finished by it. */
  lemma OwnFlights(s: State, a: Action, s': State)
    requires Next(s, a, s') && Shape(At(s.threads, a.t)) && !Spawns(s, a)
    ensures var th, th' := At(s.threads, a.t), At(s'.threads, a.t);
            && ((s'.flights.leaders == s.flights.leaders && s'.flights.nameDone == s.flights.nameDone
                 && th'.leads == th.leads)
                || (s'.flights.leaders == s.flights.leaders + [a.t] && s'.flights.nameDone == s.flights.nameDone
                    && th.leads.None? && th'.leads == Some(|s.flights.leaders|))
                || (s'.flights.leaders == s.flights.leaders && th.leads.Some?
                    && s'.flights.nameDone == s.flights.nameDone + {th.leads.value}))
            && ((s'.flights.owners == s.flights.owners && s'.flights.dohDone == s.flights.dohDone
                 && th'.owns == th.owns)
                || (s'.flights.owners == s.flights.owners + [a.t] && s'.flights.dohDone == s.flights.dohDone
                    && th.owns.None? && th'.owns == Some(|s.flights.owners|))
                || (s'.flights.owners == s.flights.owners && th.owns.Some?
                    && s'.flights.dohDone == s.flights.dohDone + {th.owns.value}))
  {
  }

  lemma OwnWait(s: State, a: Action, s': State)
    requires Next(s, a, s') && Shape(At(s.threads, a.t)) && !Spawns(s, a)
    ensures var th, th' := At(s.threads, a.t), At(s'.threads, a.t);
            && (th'.pc.NameWait? ==> th'.waits.Some? && (th' == th || th'.waits.value < |s.flights.leaders|))
            && (th'.pc.DohWait? ==> th'.waits.Some? && (th' == th || th'.waits.value < |s.flights.owners|))
  {
    StepMoves(s, a, s');
  }

  lemma FlightsFrame(s: State, s': State, t: Tid)
    requires Flights(s) && OthersSame(s, s', t)
    requires var th, th' := At(s.threads, t), At(s'.threads, t);
             && ((s'.flights.leaders == s.flights.leaders && s'.flights.nameDone == s.flights.nameDone
                  && th'.leads == th.leads)
                 || (s'.flights.leaders == s.flights.leaders + [t] && s'.flights.nameDone == s.flights.nameDone
                     && th.leads.None? && th'.leads == Some(|s.flights.leaders|))
                 || (s'.flights.leaders == s.flights.leaders && th.leads.Some?
                     && s'.flights.nameDone == s.flights.nameDone + {th.leads.value}))
             && ((s'.flights.owners == s.flights.owners && s'.flights.dohDone == s.flights.dohDone
                  && th'.owns == th.owns)
                 || (s'.flights.owners == s.flights.owners + [t] && s'.flights.dohDone == s.flights.dohDone
                     && th.owns.None? && th'.owns == Some(|s.flights.owners|))
                 || (s'.flights.owners == s.flights.owners && th.owns.Some?
                     && s'.flights.dohDone == s.flights.dohDone + {th.owns.value}))
             && (th'.pc.NameWait? ==> th'.waits.Some? && (th' == th || th'.waits.value < |s.flights.leaders|))
             && (th'.pc.DohWait? ==> th'.waits.Some? && (th' == th || th'.waits.value < |s.flights.owners|))
    ensures Flights(s')
  {
  }

  lemma OwnChildren(s: State, a: Action, s': State)
    requires Next(s, a, s') && !Spawns(s, a)
    ensures At(s'.threads, a.t).children <= At(s.threads, a.t).children
    ensures Goroutine(At(s.threads, a.t).pc) ==> Goroutine(At(s'.threads, a.t).pc)
  {
  }

  lemma ChildrenFrame(s: State, s': State, t: Tid)
    requires Children(s) && OthersSame(s, s', t)
    requires At(s'.threads, t).children <= At(s.threads, t).children
    requires Goroutine(At(s.threads, t).pc) ==> Goroutine(At(s'.threads, t).pc)
    ensures Children(s')
  {
  }

  lemma OwnLocks(s: State, a: Action, s': State)
    requires Next(s, a, s') && !a.Acquire? && !Spawns(s, a) && Shape(At(s.threads, a.t))
    ensures At(s'.threads, a.t).held.None?
    ensures s'.locks == AfterRelease(s, a.t)
  {
  }

  lemma StepKeeps(s: State, a: Action, s': State)
    requires Inv(s) && Next(s, a, s') && !Spawns(s, a)
    ensures Shapes(s') && Locks(s') && Reconnects(s') && Closes(s')
  {
    OthersStay(s, a, s');
    OwnShape(s, a, s');
    ShapesFrame(s, s', a.t);
    if a.Acquire? {
      LocksAfterAcquire(s, a.t, s');
    } else {
      OwnLocks(s, a, s');
      if At(s.threads, a.t).held.Some? { LocksAfterRelease(s, s', a.t); } else { LocksFrame(s, s', a.t); }
    }
    OwnReconnect(s, a, s');
    OwnOnce(s, a, s');
    ControlFrame(s, s', a.t);
  }

  lemma StepKeepsFlights(s: State, a: Action, s': State)
    requires Inv(s) && Next(s, a, s') && !Spawns(s, a)
    ensures Flights(s') && Children(s')
  {
    OthersStay(s, a, s');
    OwnFlights(s, a, s');
    OwnWait(s, a, s');
    FlightsFrame(s, s', a.t);
    OwnChildren(s, a, s');
    ChildrenFrame(s, s', a.t);
  }

  /** Starting a goroutine disturbs nothing. */
  lemma StartKeeps(s: State, s': State, c: Tid)
    requires Inv(s) && At(s.threads, c) == IDLE && s' == s.(threads := Started(s.threads, c))
    ensures Inv(s')
  {
    ShapesFrame(s, s', c);
    LocksFrame(s, s', c);
    ControlFrame(s, s', c);
    FlightsFrame(s, s', c);
    ChildrenFrame(s, s', c);
  }

  function BothStarted(s: State, c: Tid): State {
    s.(threads := Started(Started(s.threads, c), c + 1))
  }

  lemma BothStart(s: State, c: Tid)
    requires Inv(s) && At(s.threads, c) == IDLE && At(s.threads, c + 1) == IDLE
    ensures Inv(BothStarted(s, c))
  {
    var s1 := s.(threads := Started(s.threads, c));
    StartKeeps(s, s1, c);
    StartKeeps(s1, BothStarted(s, c), c + 1);
  }

  /** What ParentMoves is about: the thread goes from Spawn to Collect with two goroutines under way. */
  ghost predicate ParentMove(s: State, t: Tid, c: Tid, s': State) {
    && At(s.threads, t).pc.Spawn? && c != t && c + 1 != t
    && Goroutine(At(s.threads, c).pc) && Goroutine(At(s.threads, c + 1).pc)
    && s' == s.(threads := Set(s.threads, t, At(s.threads, t).(pc := Collect, held := None, children := {c, c + 1})))
  }

  /** Spawn, as two goroutines starting and then their parent moving on. */
  lemma SpawnInParts(s: State, a: Action, s': State)
    requires Next(s, a, s') && Spawns(s, a)
    ensures At(s.threads, a.pick) == IDLE && At(s.threads, a.pick + 1) == IDLE
    ensures ParentMove(BothStarted(s, a.pick), a.t, a.pick, s')
  {
  }

  lemma ParentShapes(s: State, t: Tid, c: Tid, s': State)
    requires ParentMove(s, t, c, s') && Shapes(s)
    ensures Shapes(s')
  {
    ShapesFrame(s, s', t);
  }

  lemma ParentControl(s: State, t: Tid, c: Tid, s': State)
    requires ParentMove(s, t, c, s') && Shape(At(s.threads, t)) && Locks(s) && Reconnects(s) && Closes(s)
    ensures Locks(s') && Reconnects(s') && Closes(s')
  {
    LocksFrame(s, s', t);
    ControlFrame(s, s', t);
  }

  lemma ParentFlights(s: State, t: Tid, c: Tid, s': State)
    requires ParentMove(s, t, c, s') && Flights(s)
    ensures Flights(s')
  {
    FlightsFrame(s, s', t);
  }

  lemma ParentChildren(s: State, t: Tid, c: Tid, s': State)
    requires ParentMove(s, t, c, s') && Children(s)
    ensures Children(s')
  {
  }

  lemma ParentMoves(s: State, t: Tid, c: Tid, s': State)
    requires ParentMove(s, t, c, s') && Inv(s)
    ensures Inv(s')
  {
    ParentShapes(s, t, c, s');
    ParentControl(s, t, c, s');
    ParentFlights(s, t, c, s');
    ParentChildren(s, t, c, s');
  }

  lemma SpawnKeeps(s: State, a: Action, s': State)
    requires Inv(s) && Next(s, a, s') && Spawns(s, a)
    ensures Inv(s')
  {
    SpawnInParts(s, a, s');
    BothStart(s, a.pick);
    ParentMoves(BothStarted(s, a.pick), a.t, a.pick, s');
  }

  lemma InvKept(s: State, a: Action, s': State)
    requires Inv(s) && Next(s, a, s')
    ensures Inv(s')
  {
    if Spawns(s, a) {
      SpawnKeeps(s, a, s');
    } else {
      StepKeeps(s, a, s');
      StepKeepsFlights(s, a, s');
    }
  }

  // ---------------------------------------------------------------- no deadlock

  ghost predicate Run(ss: seq<State>, acts: seq<Action>) {
    && |ss| == |acts| + 1
    && Init(ss[0])
    && forall i :: 0 <= i < |acts| ==> Next(ss[i], acts[i], ss[i + 1])
  }

  lemma {:induction false} RunKeepsInv(ss: seq<State>, acts: seq<Action>, i: nat)
    requires Run(ss, acts) && i < |ss|
    ensures Inv(ss[i])
  {
    if i == 0 {
      InitKeeps(ss[0]);
    } else {
      RunKeepsInv(ss, acts, i - 1);
      InvKept(ss[i - 1], acts[i - 1], ss[i]);
    }
  }

  predicate Unfinished(th: Thread) {
    !th.pc.Start? && !th.pc.Done?
  }

  predicate Wants(th: Thread, leaf: Leaf, mode: Mode) {
    th.held.None? && Needs(th.pc) == Some(Need(leaf, mode))
  }

  /** A reader also gives way to a writer that is waiting, as Go's RWMutex makes it do. */
  ghost predicate Grantable(s: State, leaf: Leaf, mode: Mode) {
    Free(LockOf(s.locks, leaf), mode)
    && (mode == Read ==> forall u: Tid :: !Wants(At(s.threads, u), leaf, Write))
  }

  /** What a thread can be stuck on, leaving aside that its context may expire. */
  ghost predicate Blocked(s: State, t: Tid) {
    var th := At(s.threads, t);
    || (Needs(th.pc).Some? && th.held.None? && !Grantable(s, Needs(th.pc).value.leaf, Needs(th.pc).value.mode))
    || (th.pc.RcLock? && s.rc.Some?)
    || (th.pc.NameWait? && th.waits.Some? && th.waits.value !in s.flights.nameDone)
    || (th.pc.DohWait? && th.waits.Some? && th.waits.value !in s.flights.dohDone)
    || (th.pc.Collect? && forall c :: c in th.children ==> !At(s.threads, c).pc.Done?)
    || (th.pc.OnceWait? && !s.once.Ran?)
  }

  ghost predicate CanMove(s: State, t: Tid) {
    Unfinished(At(s.threads, t)) && !Blocked(s, t)
  }

  lemma HolderMoves(s: State, u: Tid)
    requires Shape(At(s.threads, u)) && At(s.threads, u).held.Some?
    ensures CanMove(s, u)
  {
  }

  lemma GrantedMoves(s: State, u: Tid, n: Need)
    requires Needs(At(s.threads, u).pc) == Some(n) && Grantable(s, n.leaf, n.mode)
    ensures CanMove(s, u)
  {
  }

  /** Whoever holds a leaf lock can finish its section, and a waiting writer is next. */
  lemma LeafMoves(s: State, t: Tid) returns (u: Tid)
    requires Shapes(s) && Locks(s) && Needs(At(s.threads, t).pc).Some?
    ensures CanMove(s, u)
  {
    var th := At(s.threads, t);
    var n := Needs(th.pc).value;
    var lock := LockOf(s.locks, n.leaf);
    if Grantable(s, n.leaf, n.mode) {
      u := t;
      GrantedMoves(s, u, n);
      return;
    }
    if th.held.Some? {
      u := t;
    } else if lock.writer.Some? {
      u := lock.writer.value;
    } else if lock.readers != {} {
      u :| u in lock.readers;
    } else {
      u :| Wants(At(s.threads, u), n.leaf, Write);
      GrantedMoves(s, u, Need(n.leaf, Write));
      return;
    }
    assert Shape(At(s.threads, u));
    HolderMoves(s, u);
  }

  /** The labels at which nothing is waited for but locks. */
  predicate Low(pc: Label) {
    !pc.Start? && !pc.Done? && !pc.NameWait? && !pc.DohWait? && !pc.Collect? && !pc.OnceWait?
  }

  /** A thread that waits neither for a flight nor for goroutines nor for Close can move, or the
      holder of what it wants can: reconnectMu first, then a leaf lock, never the reverse. */
  lemma LowMoves(s: State, t: Tid) returns (u: Tid)
    requires Shapes(s) && Locks(s) && Reconnects(s) && Low(At(s.threads, t).pc)
    ensures CanMove(s, u)
  {
    var pc := At(s.threads, t).pc;
    if Needs(pc).Some? {
      u := LeafMoves(s, t);
    } else if pc.RcLock? && s.rc.Some? {
      var h := s.rc.value;
      if Needs(At(s.threads, h).pc).Some? { u := LeafMoves(s, h); } else { u := h; }
    } else {
      u := t;
    }
  }

  lemma OwnersAreLow(th: Thread)
    requires Shape(th) && th.owns.Some?
    ensures Low(th.pc)
  {
  }

  lemma LeadersAreBusy(th: Thread)
    requires Shape(th) && th.leads.Some?
    ensures !th.pc.Start? && !th.pc.Done? && !th.pc.NameWait? && !th.pc.OnceWait?
  {
  }

  lemma DohMoves(s: State, f: Flight) returns (u: Tid)
    requires Inv(s) && f < |s.flights.owners| && f !in s.flights.dohDone
    ensures CanMove(s, u)
  {
    var owner := s.flights.owners[f];
    assert Shape(At(s.threads, owner));
    OwnersAreLow(At(s.threads, owner));
    u := LowMoves(s, owner);
  }

  lemma CollectMoves(s: State, t: Tid) returns (u: Tid)
    requires Inv(s) && At(s.threads, t).pc.Collect?
    ensures CanMove(s, u)
  {
    var th := At(s.threads, t);
    assert Shape(th);
    var c :| c in th.children;
    if At(s.threads, c).pc.Done? { u := t; } else { u := LowMoves(s, c); }
  }

  lemma DohWaiterMoves(s: State, t: Tid) returns (u: Tid)
    requires Inv(s) && At(s.threads, t).pc.DohWait?
    ensures CanMove(s, u)
  {
    var th := At(s.threads, t);
    if th.waits.value in s.flights.dohDone {
      u := t;
      WokenMoves(s, t);
    } else {
      u := DohMoves(s, th.waits.value);
    }
  }

  lemma WokenMoves(s: State, t: Tid)
    requires At(s.threads, t).pc.DohWait? && At(s.threads, t).waits.Some?
             && At(s.threads, t).waits.value in s.flights.dohDone
    ensures CanMove(s, t)
  {
  }

  lemma LeaderMoves(s: State, t: Tid) returns (u: Tid)
    requires Inv(s) && Unfinished(At(s.threads, t)) && !At(s.threads, t).pc.NameWait? && !At(s.threads, t).pc.OnceWait?
    ensures CanMove(s, u)
  {
    var th := At(s.threads, t);
    if th.pc.DohWait? {
      u := DohWaiterMoves(s, t);
    } else if th.pc.Collect? {
      u := CollectMoves(s, t);
    } else {
      u := LowMoves(s, t);
    }
  }

  lemma NameMoves(s: State, f: Flight) returns (u: Tid)
    requires Inv(s) && f < |s.flights.leaders| && f !in s.flights.nameDone
    ensures CanMove(s, u)
  {
    var leader := s.flights.leaders[f];
    assert Shape(At(s.threads, leader));
    LeadersAreBusy(At(s.threads, leader));
    u := LeaderMoves(s, leader);
  }

  lemma CloseMoves(s: State, t: Tid) returns (u: Tid)
    requires Inv(s) && At(s.threads, t).pc.OnceWait? && !s.once.Ran?
    ensures CanMove(s, u)
  {
    assert s.once == Running(s.once.t);
    u := LowMoves(s, s.once.t);
  }

  lemma SomeoneMoves(s: State, t: Tid) returns (u: Tid)
    requires Inv(s) && Unfinished(At(s.threads, t))
    ensures CanMove(s, u)
  {
    var th := At(s.threads, t);
    if th.pc.NameWait? {
      if th.waits.value in s.flights.nameDone { u := t; } else { u := NameMoves(s, th.waits.value); }
    } else if th.pc.OnceWait? {
      if s.once.Ran? { u := t; } else { u := CloseMoves(s, t); }
    } else {
      u := LeaderMoves(s, t);
    }
  }

  /** In every reachable state with unfinished work some thread can move: name flights wait for
      their leaders, these for DoH dials and query goroutines, these for reconnectMu, and its
      holder only for a leaf lock, whose holder waits for nothing. */
  lemma NoDeadlock(ss: seq<State>, acts: seq<Action>, i: nat, t: Tid) returns (u: Tid)
    requires Run(ss, acts) && i < |ss| && Unfinished(At(ss[i].threads, t))
    ensures CanMove(ss[i], u)
  {
    RunKeepsInv(ss, acts, i);
    u := SomeoneMoves(ss[i], t);
  }

  /** The state after a step, as Next describes it. */
  function After(s: State, t: Tid, to: Label, pick: nat): State {
    var th := At(s.threads, t);
    var others := if th.pc.Spawn? then Started(Started(s.threads, pick), pick + 1) else s.threads;
    s.(locks := AfterRelease(s, t),
       rc := if th.pc.RcLock? then Some(t) else if th.pc.RcUnlock? then None else s.rc,
       once := if th.pc.OnceEnter? && to.ShutInvalidate? then Running(t) else if th.pc.OnceExit? then Ran else s.once,
       flights := Registered(s.flights, th, t, to),
       threads := Set(others, t, Moved(s.flights, th, to, pick)))
  }

  /** One of the branches open at each label. */
  function Onward(th: Thread, once: Once): Label {
    match th.pc
    case CacheGet => Enter
    case Enter => Live
    case CachePut => NameSignal
    case NameSignal => Clean
    case Live => Spawn
    case LiveClose => Claim
    case Claim => First
    case DohWait => Live
    case Exchange => FirstCheck
    case FirstCheck => Publish
    case DialDrop => Publish
    case Publish => Signal
    case Signal => NameSignal
    case SecondCheck => Spawn
    case Undo => NameSignal
    case UndoClose => NameSignal
    case Spawn => Collect
    case Collect => CachePut
    case Ask => Send
    case Retire => Send
    case RetireClose => Send
    case First => Open
    case Open => Opened
    case RcLock => RcCheck
    case RcCheck => RcUnlock
    case RcDial => RcUnlock
    case RcInstall => RcTear
    case RcDrop => RcUnlock
    case RcTear => RcInvalidate
    case RcInvalidate => RcUnlock
    case RcInvalidateClose => RcUnlock
    case RcUnlock => Second
    case Second => Reopen
    case Reopen => Opened
    case Opened => if th.caller == Handler then Done else Publish
    case OnceEnter => if once.NotRun? then ShutInvalidate else if once.Ran? then Done else OnceWait
    case ShutInvalidate => ShutSet
    case ShutClose => ShutSet
    case ShutSet => ShutTear
    case ShutTear => OnceExit
    case _ => Done
  }

  /** Which branches the shared data leaves open: there is a flight to join, another goroutine to
      collect from, and Close has got as far as the branch says. Every other branch is open. */
  predicate Offered(s: State, t: Tid, to: Label) {
    var th := At(s.threads, t);
    match th.pc
    case Enter => to.NameWait? ==> |s.flights.leaders| > 0
    case Claim => to.DohWait? ==> |s.flights.owners| > 0
    case Collect => to.Collect? ==> |th.children| > 1
    case OnceEnter => if s.once.NotRun? then to.ShutInvalidate? else if s.once.Ran? then to.Done? else to.OnceWait?
    case _ => true
  }

  /** The number a step needs: a flight to join, a goroutine that is done, or two new threads. */
  lemma PickFor(s: State, t: Tid) returns (pick: nat)
    requires Shape(At(s.threads, t)) && CanMove(s, t)
    ensures At(s.threads, t).pc.Spawn? ==> pick !in s.threads && pick + 1 !in s.threads && pick != t && pick + 1 != t
    ensures At(s.threads, t).pc.Collect? ==> pick in At(s.threads, t).children && At(s.threads, pick).pc.Done?
    ensures At(s.threads, t).pc.Enter? || At(s.threads, t).pc.Claim? ==> pick == 0
  {
    var th := At(s.threads, t);
    pick := 0;
    if th.pc.Spawn? {
      pick := NewTid(s.threads, t);
    } else if th.pc.Collect? {
      var c :| c in th.children && At(s.threads, c).pc.Done?;
      pick := c;
    }
  }

  lemma OfferedIsReady(s: State, t: Tid, to: Label, pick: nat)
    requires Shape(At(s.threads, t)) && CanMove(s, t) && Offered(s, t, to)
    requires At(s.threads, t).pc.Spawn? ==> pick !in s.threads && pick + 1 !in s.threads && pick != t && pick + 1 != t
    requires At(s.threads, t).pc.Collect? ==> pick in At(s.threads, t).children && At(s.threads, pick).pc.Done?
    requires At(s.threads, t).pc.Enter? || At(s.threads, t).pc.Claim? ==> pick == 0
    ensures Ready(s, t, to, pick)
  {
    assert |{pick}| == 1;
  }

  lemma AfterIsNext(s: State, t: Tid, to: Label, pick: nat)
    requires At(s.threads, t).held == Needs(At(s.threads, t).pc)
    requires Follows(At(s.threads, t).pc, At(s.threads, t).caller, to) && Ready(s, t, to, pick)
    ensures Next(s, Step(t, to, pick), After(s, t, to, pick))
  {
  }

  /** A thread that is not blocked and has the lock it needs can take whichever branch the data
      picks. */
  lemma EveryBranchIsOpen(s: State, t: Tid, to: Label) returns (a: Action, s': State)
    requires Inv(s) && CanMove(s, t) && At(s.threads, t).held == Needs(At(s.threads, t).pc)
    requires Follows(At(s.threads, t).pc, At(s.threads, t).caller, to) && Offered(s, t, to)
    ensures a.Step? && a.t == t && a.to == to && Next(s, a, s')
  {
    assert Shape(At(s.threads, t));
    var pick := PickFor(s, t);
    OfferedIsReady(s, t, to, pick);
    AfterIsNext(s, t, to, pick);
    a := Step(t, to, pick);
    s' := After(s, t, to, pick);
  }

  /** And one that is not blocked always has a step: it takes the lock it needs, or a branch. */
  lemma MoversStep(s: State, t: Tid) returns (a: Action, s': State)
    requires Inv(s) && CanMove(s, t)
    ensures a.t == t && Next(s, a, s')
  {
    var th := At(s.threads, t);
    assert Shape(th);
    if Needs(th.pc).Some? && th.held.None? {
      var n := Needs(th.pc).value;
      a := Acquire(t);
      s' := s.(locks := SetLock(s.locks, n.leaf, Acquired(LockOf(s.locks, n.leaf), n.mode, t)),
               threads := Set(s.threads, t, th.(held := Some(n))));
    } else {
      OnwardIsOpen(s, t);
      a, s' := EveryBranchIsOpen(s, t, Onward(th, s.once));
    }
  }

  lemma OnwardIsOpen(s: State, t: Tid)
    requires Shape(At(s.threads, t)) && CanMove(s, t)
    ensures Follows(At(s.threads, t).pc, At(s.threads, t).caller, Onward(At(s.threads, t), s.once))
    ensures Offered(s, t, Onward(At(s.threads, t), s.once))
  {
  }

  lemma NewTid(threads: map<Tid, Thread>, t: Tid) returns (c: Tid)
    ensures c !in threads && c + 1 !in threads && c != t && c + 1 != t
  {
    var bound := Bound(threads.Keys);
    c := bound + t + 1;
  }

  lemma {:induction false} Bound(tids: set<Tid>) returns (b: Tid)
    ensures forall u :: u in tids ==> u < b
    decreases tids
  {
    if tids == {} { return 0; }
    var u :| u in tids;
    var rest := tids - {u};
    b := Bound(rest);
    b := b + u + 1;
    assert forall v :: v in tids ==> v == u || v in rest;
  }

  predicate Waiting(pc: Label) {
    pc.NameWait? || pc.DohWait? || pc.Collect? || pc.OnceWait? || pc.Exchange? || pc.RcLock?
  }

  lemma WaitersHoldNothing(s: State, t: Tid, l: Leaf)
    requires Shape(At(s.threads, t)) && Locks(s) && Reconnects(s) && Waiting(At(s.threads, t).pc)
    ensures s.rc != Some(t)
    ensures LockOf(s.locks, l).writer != Some(t) && t !in LockOf(s.locks, l).readers
  {
    assert At(s.threads, t).held.None?;
  }

  /** No lock at all is held while waiting for a flight, for goroutines or for another Close, or
      while exchanging messages with a DoH server; and reconnectMu is never asked for from
      inside a leaf section. */
  lemma NothingHeldWhileWaiting(ss: seq<State>, acts: seq<Action>, i: nat, t: Tid, l: Leaf)
    requires Run(ss, acts) && i < |ss| && Waiting(At(ss[i].threads, t).pc)
    ensures ss[i].rc != Some(t)
    ensures LockOf(ss[i].locks, l).writer != Some(t) && t !in LockOf(ss[i].locks, l).readers
  {
    RunKeepsInv(ss, acts, i);
    WaitersHoldNothing(ss[i], t, l);
  }

  /** At no time does a thread hold two leaf locks: connMu and dohMu are never nested. */
  lemma LeavesNeverNest(ss: seq<State>, acts: seq<Action>, i: nat, t: Tid, k: Leaf, l: Leaf)
    requires Run(ss, acts) && i < |ss|
    requires LockOf(ss[i].locks, k).writer == Some(t) || t in LockOf(ss[i].locks, k).readers
    requires LockOf(ss[i].locks, l).writer == Some(t) || t in LockOf(ss[i].locks, l).readers
    ensures k == l
  {
    RunKeepsInv(ss, acts, i);
  }

  /** The locks do their work: a writer is alone in its sections. */
  lemma WritersAreAlone(ss: seq<State>, acts: seq<Action>, i: nat, l: Leaf)
    requires Run(ss, acts) && i < |ss| && LockOf(ss[i].locks, l).writer.Some?
    ensures LockOf(ss[i].locks, l).readers == {}
  {
    if i == 0 { return; }
    AloneKept(ss, acts, i);
  }

  ghost predicate Alone(s: State) {
    forall l {:trigger LockOf(s.locks, l)} :: LockOf(s.locks, l).writer.Some? ==> LockOf(s.locks, l).readers == {}
  }

  lemma {:induction false} AloneKept(ss: seq<State>, acts: seq<Action>, i: nat)
    requires Run(ss, acts) && i < |ss|
    ensures Alone(ss[i])
  {
    if i > 0 {
      AloneKept(ss, acts, i - 1);
      RunKeepsInv(ss, acts, i - 1);
      AloneStep(ss[i - 1], acts[i - 1], ss[i]);
    }
  }

  lemma AloneStep(s: State, a: Action, s': State)
    requires Alone(s) && Next(s, a, s')
    ensures Alone(s')
  {
  }
}
