/** What holds over every run of the HTTP/2 client. */
module H2Theorems {
  import opened Basics
  import opened H2Supervisor

  // ---------------------------------------------------------------- invariant

  /** connChanged is the newest channel and open; every earlier one was closed exactly once. */
  ghost predicate Channels(sh: Shared) {
    && sh.made == sh.connChanged + 1
    && (forall c: Chan :: sh.closes[c] == if c < sh.connChanged then 1 else 0)
    && (sh.closed ==> sh.current.None?)
  }

  /** Whoever is parked on the open channel has nothing to wake up for. */
  predicate ParkedRightly(sh: Shared, w: Wait) {
    w.Parked? ==> w.on <= sh.connChanged && (w.on == sh.connChanged ==> sh.current.None? && !sh.closed)
  }

  ghost predicate Waiting(s: State) {
    && (s.outbound.Calling? ==> ParkedRightly(s.sh, s.outbound.wait))
    && (forall t :: t in s.callers ==> ParkedRightly(s.sh, s.callers[t]))
  }

  /** The supervisor is responsible for its bundle until it has closed it. */
  predicate Tending(pc: SupervisorPc) {
    pc.Spawn? || pc.Select? || pc.Clear? || pc.Shut?
  }

  predicate Offering(pc: SupervisorPc) {
    pc.Install? || pc.DropNew?
  }

  /** Without a bundle in service. */
  predicate Renewing(pc: SupervisorPc) {
    pc.Delay? || pc.Dialing? || pc.Recheck? || Offering(pc) || pc.Exited?
  }

  predicate WithChildren(pc: SupervisorPc) {
    pc.Select? || pc.Clear? || pc.Shut? || pc.Join?
  }

  predicate Installed(s: State, b: Bundle) {
    b < |s.bundles| && s.bundles[b].installed
  }

  predicate Registers(s: State) {
    && s.sup.bundle < |s.bundles|
    && (s.sup.dialed.Some? <==> Offering(s.sup.pc))
    && (s.sup.dialed.Some? ==> s.sup.bundle < s.sup.dialed.value < |s.bundles|)
    && (s.outbound.Calling? ==> !s.outbound.wait.Refused?)
    && (s.outbound.Calling? && s.outbound.wait.Holding? ==> Installed(s, s.outbound.wait.bundle))
    && (s.end.closer.bundle.Some? ==> Installed(s, s.end.closer.bundle.value) && !s.end.closer.pc.NotCalled?)
    && (s.sh.closed ==> s.sh.current.None?)
  }

  /** Why a bundle may be where it is. */
  predicate BundleInv(s: State, b: Bundle)
    requires b < |s.bundles|
  {
    var c := s.bundles[b];
    && (!c.done ==> (b == s.sup.bundle && Tending(s.sup.pc)) || s.sup.dialed == Some(b))
    && (c.done && b == s.sup.bundle && Tending(s.sup.pc) ==> s.sh.closed)
    && (c.pump.Running? || c.ping.Running? ==> b == s.sup.bundle && WithChildren(s.sup.pc))
    && (c.failed.Some? ==> c.failOnce)
    && (s.sup.dialed == Some(b) ==> c == NEW)
  }

  ghost predicate Bundles(s: State) {
    forall b :: 0 <= b < |s.bundles| ==> BundleInv(s, b)
  }

  /** The supervisor's own bundle. */
  predicate OwnBundle(s: State)
    requires s.sup.bundle < |s.bundles|
  {
    var c := s.bundles[s.sup.bundle];
    && (s.sup.pc.Spawn? ==> c.pump.NotStarted? && c.ping.NotStarted?)
    && (WithChildren(s.sup.pc) ==> !c.pump.NotStarted? && !c.ping.NotStarted?)
    && ((s.sup.pc.Spawn? || s.sup.pc.Select?) && c.failOnce ==> c.failed.Some?)
    && (s.sup.pc.Clear? ==> c.failOnce || s.end.cancelled)
    && c.installed
  }

  predicate Current(s: State)
    requires s.sup.bundle < |s.bundles|
  {
    s.sh.current.Some? ==>
      s.sh.current == Some(s.sup.bundle) && (s.sup.pc.Spawn? || s.sup.pc.Select? || s.sup.pc.Clear?)
          && !s.bundles[s.sup.bundle].done
  }

  predicate Closing(s: State) {
    && (s.sh.closed <==> !s.end.closer.pc.NotCalled?)
    && (s.end.cancelled <==> !s.end.closer.pc.NotCalled? && !s.end.closer.pc.Cancel?)
    && (s.end.stackClosed <==> s.end.closer.pc.WaitAll? || s.end.closer.pc.Returned?)
    && (s.end.closer.pc.Returned? ==> s.sup.pc.Exited? && s.outbound.Stopped?)
    && (s.sup.pc.Exited? ==> s.end.cancelled || s.sh.closed)
    && (s.sup.pc.DropNew? ==> s.sh.closed)
    && (s.end.late > 0 ==> s.end.cancelled && !s.sup.pc.Delay? && Renewing(s.sup.pc))
    && s.end.late <= 1
  }

  ghost predicate Inv(s: State) {
    Channels(s.sh) && Waiting(s) && Registers(s) && Bundles(s) && OwnBundle(s) && Current(s) && Closing(s)
  }

  lemma InitKeeps(s: State)
    requires Init(s)
    ensures Inv(s)
  {
  }

  /** The four critical sections keep the channels in order and never strand a caller. */
  lemma AnnounceKeeps(sh: Shared, current: Option<Bundle>)
    requires Channels(sh) && (sh.closed ==> current.None?)
    ensures Channels(Announced(sh, current))
  {
  }

  lemma SectionsKeepChannels(sh: Shared, b: Bundle, cancelled: bool)
    requires Channels(sh)
    ensures Channels(AfterSet(sh, b, cancelled)) && Channels(AfterClear(sh, b)) && Channels(AfterClose(sh))
  {
    if !sh.closed { AnnounceKeeps(sh, Some(b)); }
    AnnounceKeeps(sh, None);
    AnnounceKeeps(sh.(closed := true, current := None), None);
  }

  lemma SectionsKeepParked(sh: Shared, b: Bundle, cancelled: bool, w: Wait)
    requires Channels(sh) && ParkedRightly(sh, w)
    ensures ParkedRightly(AfterSet(sh, b, cancelled), w) && ParkedRightly(AfterClear(sh, b), w)
            && ParkedRightly(AfterClose(sh), w)
    ensures ParkedRightly(sh, Looked(sh))
  {
  }

  lemma ChannelsKept(s: State, a: Action)
    requires Channels(s.sh) && Enabled(s, a)
    ensures Channels(After(s, a).sh)
  {
    SectionsKeepChannels(s.sh, s.sup.bundle, s.end.cancelled);
    if s.sup.dialed.Some? { SectionsKeepChannels(s.sh, s.sup.dialed.value, s.end.cancelled); }
  }

  /** A step's effect on one caller that it does not move. */
  lemma ParkedKept(s: State, a: Action, w: Wait)
    requires Channels(s.sh) && ParkedRightly(s.sh, w) && Enabled(s, a)
    ensures ParkedRightly(After(s, a).sh, w)
  {
    SectionsKeepParked(s.sh, s.sup.bundle, s.end.cancelled, w);
    if s.sup.dialed.Some? { SectionsKeepParked(s.sh, s.sup.dialed.value, s.end.cancelled, w); }
  }

  lemma WaitingKept(s: State, a: Action)
    requires Channels(s.sh) && Waiting(s) && Enabled(s, a)
    ensures Waiting(After(s, a))
  {
    var s' := After(s, a);
    forall t | t in s'.callers ensures ParkedRightly(s'.sh, s'.callers[t]) {
      if t in s.callers { ParkedKept(s, a, s.callers[t]); }
    }
    if s.outbound.Calling? { ParkedKept(s, a, s.outbound.wait); }
  }

  lemma BundleKeptWhileServing(s: State, a: Action, b: Bundle)
    requires Registers(s) && OwnBundle(s) && Current(s) && Closing(s) && Enabled(s, a)
    requires b < |s.bundles| && BundleInv(s, b)
    requires a.Supervise? && !Renewing(s.sup.pc)
    ensures b < |After(s, a).bundles| && BundleInv(After(s, a), b)
  {
  }

  lemma BundleKeptWhileRenewing(s: State, a: Action, b: Bundle)
    requires Registers(s) && OwnBundle(s) && Current(s) && Closing(s) && Enabled(s, a)
    requires b < |s.bundles| && BundleInv(s, b)
    requires a.Supervise? && Renewing(s.sup.pc)
    ensures b < |After(s, a).bundles| && BundleInv(After(s, a), b)
  {
  }

  lemma BundleKeptByClose(s: State, a: Action, b: Bundle)
    requires Registers(s) && OwnBundle(s) && Current(s) && Closing(s) && Enabled(s, a)
    requires b < |s.bundles| && BundleInv(s, b)
    requires a.CloseStep?
    ensures b < |After(s, a).bundles| && BundleInv(After(s, a), b)
  {
  }

  lemma BundleKeptByOthers(s: State, a: Action, b: Bundle)
    requires Registers(s) && OwnBundle(s) && Current(s) && Closing(s) && Enabled(s, a)
    requires b < |s.bundles| && BundleInv(s, b)
    requires !a.Supervise? && !a.CloseStep?
    ensures b < |After(s, a).bundles| && BundleInv(After(s, a), b)
  {
  }

  lemma BundlesKept(s: State, a: Action)
    requires Inv(s) && Enabled(s, a)
    ensures Bundles(After(s, a))
  {
    var s' := After(s, a);
    forall b | 0 <= b < |s'.bundles| ensures BundleInv(s', b) {
      if b < |s.bundles| {
        if a.CloseStep? { BundleKeptByClose(s, a, b); }
        else if !a.Supervise? { BundleKeptByOthers(s, a, b); }
        else if Renewing(s.sup.pc) { BundleKeptWhileRenewing(s, a, b); }
        else { BundleKeptWhileServing(s, a, b); }
      }
    }
  }

  lemma RegistersKeptWhileServing(s: State, a: Action)
    requires Registers(s) && OwnBundle(s) && Current(s) && Closing(s) && Enabled(s, a)
    requires a.Supervise? && !Renewing(s.sup.pc)
    ensures Registers(After(s, a))
  {
  }

  lemma RegistersKeptWhileRenewing(s: State, a: Action)
    requires Registers(s) && OwnBundle(s) && Current(s) && Closing(s) && Enabled(s, a)
    requires a.Supervise? && Renewing(s.sup.pc)
    ensures Registers(After(s, a))
  {
  }

  lemma RegistersKeptByOthers(s: State, a: Action)
    requires Registers(s) && OwnBundle(s) && Current(s) && Closing(s) && Enabled(s, a)
    requires !a.Supervise?
    ensures Registers(After(s, a))
  {
  }

  lemma OwnBundleKeptBySupervisor(s: State, a: Action)
    requires Registers(s) && OwnBundle(s) && Current(s) && Closing(s) && Enabled(s, a)
    requires BundleInv(s, s.sup.bundle) && (s.sup.dialed.Some? ==> BundleInv(s, s.sup.dialed.value))
    requires After(s, a).sup.bundle < |After(s, a).bundles|
    requires a.Supervise?
    ensures OwnBundle(After(s, a))
  {
  }

  lemma OwnBundleKeptByOthers(s: State, a: Action)
    requires Registers(s) && OwnBundle(s) && Current(s) && Closing(s) && Enabled(s, a)
    requires BundleInv(s, s.sup.bundle) && (s.sup.dialed.Some? ==> BundleInv(s, s.sup.dialed.value))
    requires After(s, a).sup.bundle < |After(s, a).bundles|
    requires !a.Supervise?
    ensures OwnBundle(After(s, a))
  {
  }

  lemma CurrentKeptBySupervisor(s: State, a: Action)
    requires Registers(s) && OwnBundle(s) && Current(s) && Closing(s) && Enabled(s, a)
    requires BundleInv(s, s.sup.bundle) && (s.sup.dialed.Some? ==> BundleInv(s, s.sup.dialed.value))
    requires After(s, a).sup.bundle < |After(s, a).bundles|
    requires a.Supervise?
    ensures Current(After(s, a))
  {
  }

  lemma CurrentKeptByOthers(s: State, a: Action)
    requires Registers(s) && OwnBundle(s) && Current(s) && Closing(s) && Enabled(s, a)
    requires BundleInv(s, s.sup.bundle) && (s.sup.dialed.Some? ==> BundleInv(s, s.sup.dialed.value))
    requires After(s, a).sup.bundle < |After(s, a).bundles|
    requires !a.Supervise?
    ensures Current(After(s, a))
  {
  }

  lemma OwnKept(s: State, a: Action)
    requires Registers(s) && OwnBundle(s) && Current(s) && Closing(s) && Enabled(s, a)
    requires BundleInv(s, s.sup.bundle) && (s.sup.dialed.Some? ==> BundleInv(s, s.sup.dialed.value))
    ensures Registers(After(s, a)) && OwnBundle(After(s, a)) && Current(After(s, a))
  {
    if a.Supervise? {
      if Renewing(s.sup.pc) { RegistersKeptWhileRenewing(s, a); } else { RegistersKeptWhileServing(s, a); }
      OwnBundleKeptBySupervisor(s, a);
      CurrentKeptBySupervisor(s, a);
    } else {
      RegistersKeptByOthers(s, a);
      OwnBundleKeptByOthers(s, a);
      CurrentKeptByOthers(s, a);
    }
  }

  lemma ClosingKept(s: State, a: Action)
    requires Registers(s) && Closing(s) && Enabled(s, a)
    ensures Closing(After(s, a))
  {
  }

  lemma InvKept(s: State, a: Action)
    requires Inv(s) && Enabled(s, a)
    ensures Inv(After(s, a))
  {
    ChannelsKept(s, a);
    WaitingKept(s, a);
    BundlesKept(s, a);
    OwnKept(s, a);
    ClosingKept(s, a);
  }

  lemma {:induction false} RunKeepsInv(ss: seq<State>, acts: seq<Action>, i: nat)
    requires Run(ss, acts) && i < |ss|
    ensures Inv(ss[i])
  {
    if i == 0 {
      InitKeeps(ss[0]);
    } else {
      RunKeepsInv(ss, acts, i - 1);
      InvKept(ss[i - 1], acts[i - 1]);
    }
  }

  // ---------------------------------------------------------------- waking up

  /** In every reachable state the open channel is the newest one and each earlier one was
      closed exactly once, so no channel is ever closed twice. */
  lemma OneOpenChannel(ss: seq<State>, acts: seq<Action>, i: nat)
    requires Run(ss, acts) && i < |ss|
    ensures ss[i].sh.closes[ss[i].sh.connChanged] == 0 && ss[i].sh.made == ss[i].sh.connChanged + 1
    ensures forall c: Chan :: c < ss[i].sh.connChanged ==> ss[i].sh.closes[c] == 1
  {
    RunKeepsInv(ss, acts, i);
  }

  /** No lost wakeup: a waitCurrent caller that is parked and cannot wake is parked on the open
      channel, while there is no bundle and the client is not closed. */
  lemma NoLostWakeup(ss: seq<State>, acts: seq<Action>, i: nat, t: Tid)
    requires Run(ss, acts) && i < |ss| && t in ss[i].callers
    requires ss[i].callers[t].Parked? && !Enabled(ss[i], Wake(t))
    ensures ss[i].callers[t].on == ss[i].sh.connChanged && ss[i].sh.current.None? && !ss[i].sh.closed
  {
    RunKeepsInv(ss, acts, i);
  }

  /** The same for the outbound pump, which cancellation wakes too. */
  lemma NoLostPacket(ss: seq<State>, acts: seq<Action>, i: nat)
    requires Run(ss, acts) && i < |ss| && ss[i].outbound.Calling? && ss[i].outbound.wait.Parked?
    ensures ss[i].sh.current.Some? || ss[i].sh.closed ==> Enabled(ss[i], Outward(false))
    ensures ss[i].end.cancelled ==> Enabled(ss[i], Outward(true))
  {
    RunKeepsInv(ss, acts, i);
  }

  // ---------------------------------------------------------------- bundles

  predicate InService(c: Conn) {
    c.installed && !c.done
  }

  predicate Gone(c: Conn) {
    c.done && !c.pump.Running? && !c.ping.Running?
  }

  /** At most one bundle that was ever installed is not closed, and no bundle but the
      supervisor's has a pump or a keepalive running. */
  lemma OneLiveBundle(ss: seq<State>, acts: seq<Action>, i: nat, b: Bundle, d: Bundle)
    requires Run(ss, acts) && i < |ss| && b < |ss[i].bundles| && d < |ss[i].bundles|
    ensures InService(ss[i].bundles[b]) && InService(ss[i].bundles[d]) ==> b == d
    ensures ss[i].bundles[b].pump.Running? && ss[i].bundles[d].pump.Running? ==> b == d
    ensures ss[i].bundles[b].ping.Running? && ss[i].bundles[d].ping.Running? ==> b == d
  {
    RunKeepsInv(ss, acts, i);
    assert BundleInv(ss[i], b) && BundleInv(ss[i], d);
  }

  /** What callers are given is the supervisor's own bundle, not yet closed. */
  lemma CurrentIsAlive(ss: seq<State>, acts: seq<Action>, i: nat)
    requires Run(ss, acts) && i < |ss| && ss[i].sh.current.Some?
    ensures ss[i].sh.current == Some(ss[i].sup.bundle) && !ss[i].sh.closed
    ensures ss[i].sup.bundle < |ss[i].bundles| && !ss[i].bundles[ss[i].sup.bundle].done
  {
    RunKeepsInv(ss, acts, i);
  }

  /** The supervisor has a bundle in use, which it has not begun to give up. */
  predicate InUse(pc: SupervisorPc) {
    pc.Spawn? || pc.Select? || pc.Clear?
  }

  predicate Provides(s: State) {
    InUse(s.sup.pc) && !s.sh.closed ==> s.sh.current == Some(s.sup.bundle)
  }

  lemma ProvidesKept(s: State, a: Action)
    requires Provides(s) && Enabled(s, a)
    ensures Provides(After(s, a))
  {
  }

  lemma ProvidesNext(ss: seq<State>, acts: seq<Action>, i: nat, j: nat)
    requires Run(ss, acts) && i < |acts| && j == i + 1 && Provides(ss[i])
    ensures Provides(ss[j])
  {
    ProvidesKept(ss[i], acts[i]);
  }

  /** And conversely: from its installation until the supervisor clears it, unless the client is
      closed, the supervisor's bundle is the current one. */
  lemma {:induction false} InUseIsCurrent(ss: seq<State>, acts: seq<Action>, i: nat)
    requires Run(ss, acts) && i < |ss|
    ensures InUse(ss[i].sup.pc) && !ss[i].sh.closed ==> ss[i].sh.current == Some(ss[i].sup.bundle)
  {
    if i > 0 {
      InUseIsCurrent(ss, acts, i - 1);
      ProvidesNext(ss, acts, i - 1, i);
    }
  }

  /** So whoever looks then is given it, the outbound pump included. */
  lemma LookersAreGivenIt(ss: seq<State>, acts: seq<Action>, i: nat)
    requires Run(ss, acts) && i < |acts| && InUse(ss[i].sup.pc) && !ss[i].sh.closed
    ensures acts[i].Wake? && acts[i].t in ss[i].callers && ss[i].callers[acts[i].t].Look? ==>
              acts[i].t in ss[i + 1].callers && ss[i + 1].callers[acts[i].t] == Holding(ss[i].sup.bundle)
    ensures acts[i] == Outward(false) && ss[i].outbound == Calling(Look) ==>
              ss[i + 1].outbound == Calling(Holding(ss[i].sup.bundle))
  {
    InUseIsCurrent(ss, acts, i);
    assert Enabled(ss[i], acts[i]) && ss[i + 1] == After(ss[i], acts[i]);
  }

  /** The outbound pump outlives any bundle: it stops only when the stack fails or the client ends,
      and after a write, whether it succeeded or not, it reads the next packet. */
  lemma ThePumpGoesOn(ss: seq<State>, acts: seq<Action>, i: nat)
    requires Run(ss, acts) && i < |acts|
    ensures !ss[i].outbound.Stopped? && ss[i + 1].outbound.Stopped? ==>
              acts[i] == ReadStack(false) || ss[i].sh.closed || ss[i].end.cancelled
    ensures acts[i].WriteEdge? ==> ss[i + 1].outbound == Reading
    ensures acts[i] == ReadStack(true) ==> ss[i + 1].outbound == Calling(Look)
  {
    assert Enabled(ss[i], acts[i]) && ss[i + 1] == After(ss[i], acts[i]);
  }

  /** Every failure is reported on its bundle: of a read or the stack in the inbound pump, of a
      ping, and of a write. Only the first one counts. */
  lemma FailuresAreReported(ss: seq<State>, acts: seq<Action>, i: nat, b: Bundle, cause: Cause)
    requires Run(ss, acts) && i < |acts|
    requires || acts[i] == PumpEnds(b, false, cause)
             || (acts[i] == PingEnds(b, false) && cause == PingError)
             || (acts[i] == WriteEdge(false) && ss[i].outbound == Calling(Holding(b)) && cause == WriteError)
    ensures b < |ss[i].bundles| && b < |ss[i + 1].bundles| && ss[i + 1].bundles[b].failOnce
    ensures !ss[i].bundles[b].failOnce ==> ss[i + 1].bundles[b].failed == Some(cause)
    ensures ss[i].bundles[b].failOnce ==> ss[i + 1].bundles[b].failed == ss[i].bundles[b].failed
  {
    RunKeepsInv(ss, acts, i);
    assert Enabled(ss[i], acts[i]) && ss[i + 1] == After(ss[i], acts[i]);
    assert BundleInv(ss[i], b);
  }

  /** A dial that succeeds on an open client puts its bundle to use. */
  lemma DialedIsInstalled(ss: seq<State>, acts: seq<Action>, i: nat)
    requires Run(ss, acts) && i < |acts| && acts[i].Supervise? && ss[i].sup.pc.Install? && !ss[i].sh.closed
    requires !ss[i].end.cancelled
    ensures ss[i].sup.dialed.Some? && ss[i + 1].sup == Supervisor(Spawn, ss[i].sup.dialed.value, None)
    ensures ss[i + 1].sh.current == ss[i].sup.dialed
  {
    assert Enabled(ss[i], acts[i]) && ss[i + 1] == After(ss[i], acts[i]);
  }

  /** A bundle stops being current only when the supervisor clears it, and then it had itself
      failed (or everything was cancelled), or when Close takes it: the late failure of an older
      bundle never clears a newer one. */
  lemma ClearedOnlyForItself(ss: seq<State>, acts: seq<Action>, i: nat, b: Bundle)
    requires Run(ss, acts) && i < |acts| && ss[i].sh.current == Some(b) && ss[i + 1].sh.current != Some(b)
    ensures ss[i + 1].sh.current.None?
    ensures || (acts[i].CloseStep? && !ss[i].sh.closed && ss[i + 1].sh.closed)
            || (acts[i].Supervise? && ss[i].sup.pc.Clear? && ss[i].sup.bundle == b && b < |ss[i].bundles|
                && (ss[i].bundles[b].failOnce || ss[i].end.cancelled))
  {
    RunKeepsInv(ss, acts, i);
  }

  /** And a report on the bundle in service is never lost: until the supervisor has seen one,
      the first report is in the channel and its select can fire. */
  lemma FailureIsNoticed(ss: seq<State>, acts: seq<Action>, i: nat)
    requires Run(ss, acts) && i < |ss| && ss[i].sup.pc.Select?
    ensures ss[i].sup.bundle < |ss[i].bundles|
    ensures ss[i].bundles[ss[i].sup.bundle].failOnce <==> Enabled(ss[i], Supervise(false))
  {
    RunKeepsInv(ss, acts, i);
    assert BundleInv(ss[i], ss[i].sup.bundle);
  }

  /** The goroutines that watch a bundle: when one is over the bundle was reported or is being
      closed, or the client is. */
  predicate Watched(s: State) {
    && s.sup.bundle < |s.bundles|
    && var c := s.bundles[s.sup.bundle];
       WithChildren(s.sup.pc) && (c.pump.Over? || c.ping.Over?) ==> c.failOnce || c.done || s.end.cancelled
  }

  lemma WatchedKept(s: State, a: Action)
    requires Inv(s) && Enabled(s, a) && Watched(s) && Registers(After(s, a))
    ensures Watched(After(s, a))
  {
    assert BundleInv(s, s.sup.bundle);
  }

  lemma WatchedNext(ss: seq<State>, acts: seq<Action>, i: nat, j: nat)
    requires Run(ss, acts) && i < |acts| && j == i + 1 && Watched(ss[i])
    ensures Watched(ss[j])
  {
    RunKeepsInv(ss, acts, i);
    InvKept(ss[i], acts[i]);
    WatchedKept(ss[i], acts[i]);
  }

  lemma {:induction false} AlwaysWatched(ss: seq<State>, acts: seq<Action>, i: nat)
    requires Run(ss, acts) && i < |ss|
    ensures Watched(ss[i])
  {
    if i > 0 {
      AlwaysWatched(ss, acts, i - 1);
      WatchedNext(ss, acts, i - 1, i);
    }
  }

  /** A bundle never fails in silence: while the supervisor waits, and until the client closes,
      either both goroutines of its bundle run or a report is there for it to receive. */
  lemma NoSilentFailure(ss: seq<State>, acts: seq<Action>, i: nat)
    requires Run(ss, acts) && i < |ss| && ss[i].sup.pc.Select? && !ss[i].sh.closed
    ensures ss[i].sup.bundle < |ss[i].bundles|
    ensures var c := ss[i].bundles[ss[i].sup.bundle];
            (c.pump.Running? && c.ping.Running?) || Enabled(ss[i], Supervise(false))
  {
    RunKeepsInv(ss, acts, i);
    AlwaysWatched(ss, acts, i);
    assert BundleInv(ss[i], ss[i].sup.bundle);
  }

  /** The shared fields stay as they are and no further bundle is installed. */
  ghost predicate Frozen(s: State, s': State) {
    && s'.sh == s.sh && |s.bundles| <= |s'.bundles|
    && forall b :: 0 <= b < |s'.bundles| && s'.bundles[b].installed ==> b < |s.bundles| && s.bundles[b].installed
  }

  lemma ClosedStays(s: State, a: Action)
    requires Registers(s) && Closing(s) && s.sh.closed && Enabled(s, a)
    ensures Frozen(s, After(s, a))
  {
  }

  lemma FrozenStep(ss: seq<State>, acts: seq<Action>, i: nat)
    requires Run(ss, acts) && i < |acts| && ss[i].sh.closed
    ensures Frozen(ss[i], ss[i + 1])
  {
    RunKeepsInv(ss, acts, i);
    ClosedStays(ss[i], acts[i]);
  }

  /** Each step from a closed state on, without the run behind it. */
  ghost predicate Freezing(ss: seq<State>) {
    forall k: nat :: k + 1 < |ss| && ss[k].sh.closed ==> Frozen(ss[k], ss[k + 1])
  }

  lemma RunsFreeze(ss: seq<State>, acts: seq<Action>)
    requires Run(ss, acts)
    ensures Freezing(ss)
  {
    forall k: nat | k + 1 < |ss| && ss[k].sh.closed ensures Frozen(ss[k], ss[k + 1]) {
      FrozenStep(ss, acts, k);
    }
  }

  lemma {:induction false} FrozenAlong(ss: seq<State>, i: nat, j: nat)
    requires Freezing(ss) && i <= j < |ss| && ss[i].sh.closed
    ensures Frozen(ss[i], ss[j])
    decreases j
  {
    if i < j {
      FrozenAlong(ss, i, j - 1);
      assert Frozen(ss[j - 1], ss[(j - 1) + 1]);
    }
  }

  /** Nothing is installed after Close has set `closed`. */
  lemma NothingAfterClose(ss: seq<State>, acts: seq<Action>, i: nat, j: nat)
    requires Run(ss, acts) && i <= j < |ss| && ss[i].sh.closed
    ensures Frozen(ss[i], ss[j]) && ss[j].sh.current.None?
  {
    RunsFreeze(ss, acts);
    FrozenAlong(ss, i, j);
    ClosedMeansNone(ss, acts, j);
  }

  lemma ClosedMeansNone(ss: seq<State>, acts: seq<Action>, i: nat)
    requires Run(ss, acts) && i < |ss| && ss[i].sh.closed
    ensures ss[i].sh.current.None?
  {
    RunKeepsInv(ss, acts, i);
  }

  /** Every bundle that dial returned is closed by the time the supervisor exits, and until then
      the open ones are at most its own and the one it is about to install or drop. */
  lemma EveryBundleIsClosed(ss: seq<State>, acts: seq<Action>, i: nat, b: Bundle)
    requires Run(ss, acts) && i < |ss| && b < |ss[i].bundles|
    ensures ss[i].bundles[b].done || b == ss[i].sup.bundle || ss[i].sup.dialed == Some(b)
    ensures ss[i].sup.pc.Exited? ==> Gone(ss[i].bundles[b])
  {
    RunKeepsInv(ss, acts, i);
    assert BundleInv(ss[i], b);
  }

  /** When Close returns, all of it is gone. */
  lemma CloseFinishesEverything(ss: seq<State>, acts: seq<Action>, i: nat, b: Bundle)
    requires Run(ss, acts) && i < |ss| && ss[i].end.closer.pc.Returned?
    ensures ss[i].sup.pc.Exited? && ss[i].outbound.Stopped? && ss[i].end.stackClosed && ss[i].sh.current.None?
    ensures b < |ss[i].bundles| ==> Gone(ss[i].bundles[b])
  {
    RunKeepsInv(ss, acts, i);
    if b < |ss[i].bundles| { EveryBundleIsClosed(ss, acts, i, b); }
  }

  // ---------------------------------------------------------------- the way out

  function SupervisorRank(pc: SupervisorPc): nat {
    match pc
    case Spawn => 12
    case Select => 9
    case Clear => 8
    case Shut => 7
    case Join => 6
    case Check => 5
    case Delay => 4
    case Dialing => 3
    case Install => 2
    case Recheck => 1
    case DropNew => 1
    case Exited => 0
  }

  function Alive(c: Conn): nat {
    (if c.pump.Running? then 1 else 0) + (if c.ping.Running? then 1 else 0)
  }

  function OutboundRank(o: Outbound): nat {
    match o
    case Stopped => 0
    case Reading => 3
    case Calling(w) => if w.Holding? then 4 else if w.Parked? then 2 else 1
  }

  function CloserRank(pc: CloserPc): nat {
    match pc
    case NotCalled => 5
    case Cancel => 4
    case ShutBundle => 3
    case ShutStack => 2
    case WaitAll => 1
    case Returned => 0
  }

  function Rank(s: State): nat {
    SupervisorRank(s.sup.pc) + (if s.sup.bundle < |s.bundles| then Alive(s.bundles[s.sup.bundle]) else 0)
    + OutboundRank(s.outbound) + CloserRank(s.end.closer.pc)
  }

  predicate Outside(a: Action) {
    a.Call? || a.Wake? || a.GiveUp?
  }

  lemma SupervisorRankFalls(s: State, branch: bool)
    requires Registers(s) && OwnBundle(s) && Closing(s) && s.end.cancelled && Enabled(s, Supervise(branch))
    requires BundleInv(s, s.sup.bundle)
    ensures Rank(After(s, Supervise(branch))) < Rank(s)
  {
  }

  lemma OthersRankFalls(s: State, a: Action)
    requires Registers(s) && Closing(s) && s.end.cancelled && Enabled(s, a) && !a.Supervise?
    requires a.PumpEnds? || a.PingEnds? ==> BundleInv(s, a.b)
    ensures if Outside(a) then Rank(After(s, a)) == Rank(s) else Rank(After(s, a)) < Rank(s)
  {
  }

  /** Once the client is cancelled, every step of the supervisor, the pumps and Close uses up
      rank, and other waitCurrent callers never add any. */
  lemma RankFalls(s: State, a: Action)
    requires Inv(s) && s.end.cancelled && Enabled(s, a)
    ensures After(s, a).end.cancelled
    ensures if Outside(a) then Rank(After(s, a)) == Rank(s) else Rank(After(s, a)) < Rank(s)
  {
    if a.Supervise? {
      assert BundleInv(s, s.sup.bundle);
      SupervisorRankFalls(s, a.branch);
    } else {
      if a.PumpEnds? || a.PingEnds? { assert BundleInv(s, a.b); }
      OthersRankFalls(s, a);
    }
  }

  /** A step that is open to the supervisor, a pump or Close. */
  function WayOut(s: State): Action
    requires s.sup.bundle < |s.bundles|
  {
    var c := s.bundles[s.sup.bundle];
    if c.pump.Running? then PumpEnds(s.sup.bundle, true, ReadError)
    else if c.ping.Running? then PingEnds(s.sup.bundle, true)
    else if !s.sup.pc.Exited? then Supervise(s.sup.pc.Select? || s.sup.pc.Delay?)
    else if !s.end.closer.pc.WaitAll? then CloseStep
    else match s.outbound
      case Reading => ReadStack(false)
      case Calling(w) => if w.Holding? then WriteEdge(true) else Outward(w.Parked?)
      case Stopped => CloseStep
  }

  /** And until Close has returned there is one: after cancellation nothing waits for anything
      that will not come. */
  lemma AlwaysAWayOut(s: State)
    requires Inv(s) && s.end.cancelled && !s.end.closer.pc.Returned?
    ensures s.sup.bundle < |s.bundles| && Enabled(s, WayOut(s)) && !Outside(WayOut(s))
  {
    assert BundleInv(s, s.sup.bundle);
  }

  function InsideSteps(acts: seq<Action>, i: nat, j: nat): nat
    requires i <= j <= |acts|
    decreases j
  {
    if i == j then 0 else InsideSteps(acts, i, j - 1) + (if Outside(acts[j - 1]) then 0 else 1)
  }

  lemma RankAtCancel(s: State)
    requires Inv(s) && s.end.cancelled
    ensures Rank(s) <= 21
  {
    assert BundleInv(s, s.sup.bundle);
  }

  lemma RankAlong(ss: seq<State>, acts: seq<Action>, i: nat)
    requires Run(ss, acts) && i < |acts| && ss[i].end.cancelled
    ensures ss[i + 1].end.cancelled && Rank(ss[i + 1]) + (if Outside(acts[i]) then 0 else 1) <= Rank(ss[i])
  {
    RunKeepsInv(ss, acts, i);
    RankFalls(ss[i], acts[i]);
  }

  lemma {:induction false} StaysCancelled(ss: seq<State>, acts: seq<Action>, i: nat, j: nat)
    requires Run(ss, acts) && i <= j < |ss| && ss[i].end.cancelled
    ensures ss[j].end.cancelled
    decreases j
  {
    if i < j {
      StaysCancelled(ss, acts, i, j - 1);
      RankAlong(ss, acts, j - 1);
    }
  }

  lemma {:induction false} Telescoped(ranks: seq<nat>, acts: seq<Action>, i: nat, j: nat)
    requires |ranks| == |acts| + 1 && i <= j <= |acts|
    requires forall k: nat :: i <= k < |acts| ==> ranks[k + 1] + (if Outside(acts[k]) then 0 else 1) <= ranks[k]
    ensures InsideSteps(acts, i, j) + ranks[j] <= ranks[i]
    decreases j
  {
    if i < j {
      Telescoped(ranks, acts, i, j - 1);
      assert ranks[(j - 1) + 1] + (if Outside(acts[j - 1]) then 0 else 1) <= ranks[j - 1];
    }
  }

  lemma InsideIsBounded(ss: seq<State>, acts: seq<Action>, i: nat, j: nat)
    requires Run(ss, acts) && i <= j < |ss| && ss[i].end.cancelled
    ensures ss[j].end.cancelled && InsideSteps(acts, i, j) <= Rank(ss[i])
  {
    var ranks := seq(|ss|, k requires 0 <= k < |ss| => Rank(ss[k]));
    forall k: nat | i <= k < |acts|
      ensures ranks[k + 1] + (if Outside(acts[k]) then 0 else 1) <= ranks[k]
    {
      StaysCancelled(ss, acts, i, k);
      RankAlong(ss, acts, k);
    }
    Telescoped(ranks, acts, i, j);
    StaysCancelled(ss, acts, i, j);
  }

  /** No step is left to the supervisor, the pumps or Close. */
  ghost predicate Quiet(s: State) {
    forall a: Action :: Enabled(s, a) ==> Outside(a)
  }

  /** So after cancellation a run has at most 21 such steps left, at most one dial begins, and
      when no more steps are possible Close has returned. */
  lemma CloseReturns(ss: seq<State>, acts: seq<Action>, i: nat, j: nat)
    requires Run(ss, acts) && i <= j < |ss| && ss[i].end.cancelled
    ensures InsideSteps(acts, i, j) <= 21 && ss[j].end.late <= 1
    ensures Quiet(ss[j]) ==> ss[j].end.closer.pc.Returned?
  {
    InsideIsBounded(ss, acts, i, j);
    RunKeepsInv(ss, acts, i);
    RankAtCancel(ss[i]);
    QuietMeansReturned(ss, acts, j);
  }

  lemma QuietMeansReturned(ss: seq<State>, acts: seq<Action>, j: nat)
    requires Run(ss, acts) && j < |ss| && ss[j].end.cancelled
    ensures ss[j].end.late <= 1
    ensures Quiet(ss[j]) ==> ss[j].end.closer.pc.Returned?
  {
    RunKeepsInv(ss, acts, j);
    if !ss[j].end.closer.pc.Returned? { AlwaysAWayOut(ss[j]); }
  }
}
