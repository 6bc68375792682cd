/** The HTTP/3 client's QUIC connections (tunnel/masque.go currentConnection, openRequestStream,
    reconnect, Close): any number of threads share one bundle, replace it when it fails and
    tear it down at the end. Each section under connMu is one step; reconnectMu is explicit,
    because it is held across the dial. */
module Bundles {
  import opened Basics

  type Tid = nat
  type Bundle = nat

  // ---------------------------------------------------------------- the guarded fields

  /** What currentConnection returns, given which bundles have died. */
  function Live(cur: Option<Bundle>, closed: bool, dead: set<Bundle>): Option<Bundle> {
    if closed || cur.None? || cur.value in dead then None else cur
  }

  /** The fields under connMu after one of its two writing sections, and the bundle that the
      section leaves to its caller to tear down. */
  datatype Change = Change(cur: Option<Bundle>, closed: bool, out: Option<Bundle>)

  /** reconnect's: a closed client gives the new bundle back, an open one the old. */
  function InstallSection(cur: Option<Bundle>, closed: bool, b: Bundle): Change {
    if closed then Change(cur, closed, Some(b)) else Change(Some(b), closed, cur)
  }

  /** Close's. */
  function ShutSection(cur: Option<Bundle>): Change {
    Change(None, true, cur)
  }

  function Held(b: Option<Bundle>): multiset<Bundle> {
    if b.Some? then multiset{b.value} else multiset{}
  }

  class Slot {
    var cur: Option<Bundle>
    var closed: bool

    /** A closed client has no current bundle. */
    ghost predicate Valid()
      reads this
    {
      closed ==> cur.None?
    }

    constructor (first: Bundle)
      ensures Valid() && cur == Some(first) && !closed
    {
      cur, closed := Some(first), false;
    }

    /** The current bundle, and only while the client is open and the bundle alive. */
    method CurrentConnection(dead: set<Bundle>) returns (r: Option<Bundle>)
      ensures r == Live(cur, closed, dead)
      ensures r.Some? <==> !closed && cur.Some? && cur.value !in dead
      ensures r.Some? ==> r == cur
    {
      if closed || cur.None? { return None; }
      if cur.value in dead { return None; }
      return cur;
    }

    /** The section of reconnect that installs a new bundle, unless the client has closed: no
        bundle is lost or doubled, and what the caller must tear down is no longer current. */
    method Install(bundle: Bundle) returns (ok: bool, out: Option<Bundle>)
      requires Valid()
      modifies this
      ensures Valid() && closed == old(closed) && (ok <==> !closed)
      ensures Change(cur, closed, out) == InstallSection(old(cur), old(closed), bundle)
      ensures Held(cur) + Held(out) == Held(old(cur)) + multiset{bundle}
    {
      if closed { return false, Some(bundle); }
      out := cur;
      cur := Some(bundle);
      ok := true;
    }

    /** The section of Close: from now on nothing is current and nothing will be installed. */
    method Shut() returns (out: Option<Bundle>)
      requires Valid()
      modifies this
      ensures Valid() && Change(cur, closed, out) == ShutSection(old(cur))
      ensures Held(cur) + Held(out) == Held(old(cur))
      ensures forall b :: InstallSection(cur, closed, b) == Change(None, true, Some(b))
    {
      closed := true;
      out := cur;
      cur := None;
    }
  }

  // ---------------------------------------------------------------- the machine

  datatype Pc =
    | Start
    | First                                                            // :357
    | Open(b: Bundle)                                                  // :376
    | Lock(stale: Option<Bundle>)                                      // :399
    | Check(stale: Option<Bundle>)                                     // :402
    | Dial(stale: Option<Bundle>, seen: Option<Bundle>, wasDead: bool) // :412
    | Install(stale: Option<Bundle>, seen: Option<Bundle>, wasDead: bool, b: Bundle) // :417
    | Drop(b: Bundle)                                                  // :420
    | CloseOld(b: Bundle)                                              // :427
    | Invalidate                                                       // :432
    | Unlock(ok: bool)                                                 // :400
    | Second                                                           // :364, :391
    | Reopen(b: Bundle)                                                // :368, :395
    | ShutSet                                                          // :1303
    | ShutTear(victim: Option<Bundle>)                                 // :1308
    | OnceWait                                                         // :1300
    | Done(ok: bool)

  /** One replacement, with what justified it at the check. */
  datatype Replacement = Replacement(old_: Bundle, new_: Bundle, stale: Option<Bundle>, wasDead: bool)

  /** Every bundle's fate: which have died, which were torn down, and how many were dialed. */
  datatype Fates = Fates(dead: set<Bundle>, torn: set<Bundle>, next: nat)

  /** Close's sync.Once: who runs the body, and whether it is over. */
  datatype Once = Once(closer: Option<Tid>, finished: bool)

  datatype State = State(cur: Option<Bundle>, closed: bool, mu: Option<Tid>, once: Once, fate: Fates,
                         log: seq<Replacement>, pc: map<Tid, Pc>)

  function At(pc: map<Tid, Pc>, t: Tid): Pc {
    if t in pc then pc[t] else Start
  }

  function Move(pc: map<Tid, Pc>, t: Tid, p: Pc): (r: map<Tid, Pc>)
    ensures forall u: Tid {:trigger At(r, u)} :: At(r, u) == if u == t then p else At(pc, u)
  {
    pc[t := p]
  }

  /** The constructor has dialed and stored the first bundle. */
  predicate Init(s: State) {
    s == State(Some(0), false, None, Once(None, false), Fates({}, {}, 1), [], map[])
  }

  datatype Action =
    | BeginOpen(t: Tid)
    | BeginClose(t: Tid)
    | Dies(b: Bundle)
    | Looked(t: Tid)
    | OpenEnds(t: Tid, ok: bool, cancelled: bool)
    | Locked(t: Tid)
    | Checked(t: Tid)
    | DialEnds(t: Tid, ok: bool)
    | Installed(t: Tid)
    | Torn(t: Tid)
    | Invalidated(t: Tid)
    | Unlocked(t: Tid)
    | LookedAgain(t: Tid)
    | ReopenEnds(t: Tid, ok: bool)
    | Shut(t: Tid)
    | OnceReturns(t: Tid)

  predicate Next(s: State, a: Action, s': State) {
    match a
    case BeginOpen(t) =>
      At(s.pc, t).Start? && s' == s.(pc := Move(s.pc, t, First))
    case BeginClose(t) =>
      // sync.Once: the first caller runs the body, the others wait for it.
      At(s.pc, t).Start?
      && s' == if s.once.closer.None? then s.(once := s.once.(closer := Some(t)), pc := Move(s.pc, t, ShutSet))
               else s.(pc := Move(s.pc, t, OnceWait))
    case Dies(b) =>
      s' == s.(fate := s.fate.(dead := s.fate.dead + {b}))
    case Looked(t) =>
      At(s.pc, t).First?
      && (var live := Live(s.cur, s.closed, s.fate.dead);
          s' == s.(pc := Move(s.pc, t, if live.Some? then Open(live.value) else Lock(None))))
    case OpenEnds(t, ok, cancelled) =>
      At(s.pc, t).Open?
      && s' == s.(pc := Move(s.pc, t, if ok || cancelled then Done(ok) else Lock(Some(At(s.pc, t).b))))
    case Locked(t) =>
      At(s.pc, t).Lock? && s.mu.None?
      && s' == s.(mu := Some(t), pc := Move(s.pc, t, Check(At(s.pc, t).stale)))
    case Checked(t) =>
      At(s.pc, t).Check?
      && (var stale := At(s.pc, t).stale;
          var live := Live(s.cur, s.closed, s.fate.dead);
          s' == s.(pc := Move(s.pc, t, if live.Some? && live != stale then Unlock(true)
                                       else Dial(stale, s.cur, s.cur.Some? && s.cur.value in s.fate.dead))))
    case DialEnds(t, ok) =>
      At(s.pc, t).Dial?
      && (var p := At(s.pc, t);
          s' == if ok then s.(fate := s.fate.(next := s.fate.next + 1),
                              pc := Move(s.pc, t, Install(p.stale, p.seen, p.wasDead, s.fate.next)))
                else s.(pc := Move(s.pc, t, Unlock(false))))
    case Installed(t) =>
      At(s.pc, t).Install?
      && (var p := At(s.pc, t);
          var c := InstallSection(s.cur, s.closed, p.b);
          s' == if s.closed then s.(pc := Move(s.pc, t, Drop(p.b)))
                else if c.out.None? then s.(cur := c.cur, pc := Move(s.pc, t, Invalidate))
                else s.(cur := c.cur, log := s.log + [Replacement(c.out.value, p.b, p.stale, p.wasDead)],
                        pc := Move(s.pc, t, CloseOld(c.out.value))))
    case Torn(t) =>
      Holds(At(s.pc, t)).Some? && !At(s.pc, t).Install?
      && (var b := Holds(At(s.pc, t)).value;
          s' == s.(fate := s.fate.(dead := s.fate.dead + {b}, torn := s.fate.torn + {b}),
                   once := s.once.(finished := s.once.finished || At(s.pc, t).ShutTear?),
                   pc := Move(s.pc, t, match At(s.pc, t)
                                       case Drop(_) => Unlock(false)
                                       case CloseOld(_) => Invalidate
                                       case _ => Done(true))))
    case Invalidated(t) =>
      At(s.pc, t).Invalidate? && s' == s.(pc := Move(s.pc, t, Unlock(true)))
    case Unlocked(t) =>
      At(s.pc, t).Unlock?
      && s' == s.(mu := None, pc := Move(s.pc, t, if At(s.pc, t).ok then Second else Done(false)))
    case LookedAgain(t) =>
      At(s.pc, t).Second?
      && (var live := Live(s.cur, s.closed, s.fate.dead);
          s' == s.(pc := Move(s.pc, t, if live.Some? then Reopen(live.value) else Done(false))))
    case ReopenEnds(t, ok) =>
      At(s.pc, t).Reopen? && s' == s.(pc := Move(s.pc, t, Done(ok)))
    case Shut(t) =>
      At(s.pc, t).ShutSet?
      && (var c := ShutSection(s.cur);
          s' == s.(closed := c.closed, cur := c.cur, once := s.once.(finished := s.once.finished || c.out.None?),
                   pc := Move(s.pc, t, if c.out.Some? then ShutTear(c.out) else Done(true))))
    case OnceReturns(t) =>
      At(s.pc, t).OnceWait? && s.once.finished && s' == s.(pc := Move(s.pc, t, Done(true)))
  }

  /** The bundle a thread has in hand and must install or tear down. */
  function Holds(p: Pc): Option<Bundle> {
    match p
    case Install(_, _, _, b) => Some(b)
    case Drop(b) => Some(b)
    case CloseOld(b) => Some(b)
    case ShutTear(v) => v
    case _ => None
  }

  /** Between Lock and Unlock of reconnectMu. */
  predicate InReconnect(p: Pc) {
    p.Check? || p.Dial? || p.Install? || p.Drop? || p.CloseOld? || p.Invalidate? || p.Unlock?
  }

  // ---------------------------------------------------------------- invariant

  /** No bundle is in two places. */
  ghost predicate Exclusive(s: State) {
    && (s.cur.Some? ==> s.cur.value < s.fate.next && s.cur.value !in s.fate.torn)
    && (forall t: Tid :: Holds(At(s.pc, t)).Some? ==>
          (var b := Holds(At(s.pc, t)).value; b < s.fate.next && b !in s.fate.torn && s.cur != Some(b)))
    && (forall t: Tid, u: Tid ::
          Holds(At(s.pc, t)).Some? && Holds(At(s.pc, t)) == Holds(At(s.pc, u)) ==> t == u)
    && (forall b :: b in s.fate.torn ==> b < s.fate.next)
  }

  /** Every bundle is somewhere. */
  ghost predicate Accounted(s: State) {
    forall b: Bundle :: b < s.fate.next ==> Somewhere(s, b)
  }

  ghost predicate Somewhere(s: State, b: Bundle) {
    s.cur == Some(b) || b in s.fate.torn || exists t: Tid :: Holds(At(s.pc, t)) == Some(b)
  }

  /** reconnectMu is held by the one thread inside reconnect. */
  ghost predicate Mutex(s: State) {
    forall t: Tid :: InReconnect(At(s.pc, t)) <==> s.mu == Some(t)
  }

  /** The single run of Close's body. */
  ghost predicate Closing(s: State) {
    && (s.cur.None? <==> s.closed)
    && (forall t: Tid :: At(s.pc, t).ShutSet? ==> s.once.closer == Some(t) && !s.closed)
    && (forall t: Tid :: At(s.pc, t).ShutTear? ==>
          s.once.closer == Some(t) && s.closed && !s.once.finished && At(s.pc, t).victim.Some?)
    && (s.once.finished ==> s.closed)
    && (s.closed ==> s.once.closer.Some?)
  }

  /** What a reconnecting thread saw is still current until it installs, unless the client
      closed meanwhile; and it saw a reason to replace it. */
  predicate Justified(s: State, seen: Option<Bundle>, stale: Option<Bundle>, wasDead: bool) {
    && (s.cur == seen || s.closed)
    && (seen.Some? ==> wasDead || seen == stale)
  }

  ghost predicate Reasons(s: State) {
    && (forall t: Tid :: At(s.pc, t).Dial? ==>
          Justified(s, At(s.pc, t).seen, At(s.pc, t).stale, At(s.pc, t).wasDead))
    && (forall t: Tid :: At(s.pc, t).Install? ==>
          Justified(s, At(s.pc, t).seen, At(s.pc, t).stale, At(s.pc, t).wasDead))
  }

  /** A replaced bundle never becomes current again. */
  ghost predicate History(s: State) {
    && (forall i :: 0 <= i < |s.log| ==> s.log[i].wasDead || s.log[i].stale == Some(s.log[i].old_))
    && (forall i :: 0 <= i < |s.log| ==> s.log[i].old_ < s.fate.next && s.cur != Some(s.log[i].old_))
    && (forall i, t: Tid :: 0 <= i < |s.log| && At(s.pc, t).Install? ==> At(s.pc, t).b != s.log[i].old_)
    && (forall i, j :: 0 <= i < j < |s.log| ==> s.log[i].old_ != s.log[j].old_)
  }

  ghost predicate Inv(s: State) {
    Exclusive(s) && Accounted(s) && Mutex(s) && Closing(s) && Reasons(s) && History(s)
  }

  lemma InitKeeps(s: State)
    requires Init(s)
    ensures Inv(s)
  {
  }

  /** The steps that touch no bundle; the others are DialEnds, Installed, Torn and Shut. */
  predicate Reconnecting(a: Action) {
    a.Locked? || a.Checked? || a.DialEnds? || a.Installed? || a.Torn? || a.Invalidated? || a.Unlocked?
  }

  predicate Quiet(a: Action) {
    !a.DialEnds? && !a.Installed? && !a.Torn? && !a.Shut?
  }

  /** Everything about bundles is as before. */
  ghost predicate SamePlaces(s: State, s': State) {
    && s'.cur == s.cur && s'.fate.torn == s.fate.torn && s'.fate.next == s.fate.next && s'.log == s.log
       && s'.closed == s.closed
    && (forall t: Tid :: Holds(At(s'.pc, t)) == Holds(At(s.pc, t)))
    && (forall t: Tid :: At(s'.pc, t).Install? <==> At(s.pc, t).Install?)
    && (forall t: Tid :: At(s'.pc, t).Install? ==> At(s'.pc, t) == At(s.pc, t))
  }

  lemma QuietStaysReconnecting(s: State, a: Action, s': State)
    requires Next(s, a, s') && Quiet(a)
    requires Reconnecting(a)
    ensures SamePlaces(s, s')
  {
  }

  /** The steps of openRequestStream itself. */
  predicate Opens(a: Action) {
    a.BeginOpen? || a.Looked? || a.OpenEnds? || a.LookedAgain? || a.ReopenEnds?
  }

  lemma QuietStaysOpening(s: State, a: Action, s': State)
    requires Next(s, a, s') && Quiet(a)
    requires !Reconnecting(a) && Opens(a)
    ensures SamePlaces(s, s')
  {
  }

  lemma QuietStaysClosing(s: State, a: Action, s': State)
    requires Next(s, a, s') && Quiet(a)
    requires !Reconnecting(a) && !Opens(a)
    ensures SamePlaces(s, s')
  {
  }

  lemma QuietStays(s: State, a: Action, s': State)
    requires Next(s, a, s') && Quiet(a)
    ensures SamePlaces(s, s')
  {
    if Reconnecting(a) { QuietStaysReconnecting(s, a, s'); }
    else if Opens(a) { QuietStaysOpening(s, a, s'); }
    else { QuietStaysClosing(s, a, s'); }
  }

  lemma PlacesKept(s: State, s': State)
    requires Inv(s) && SamePlaces(s, s')
    ensures Exclusive(s') && Accounted(s') && History(s')
  {
    forall b: Bundle | b < s'.fate.next ensures Somewhere(s', b) {
      assert Somewhere(s, b);
      if t: Tid :| Holds(At(s.pc, t)) == Some(b) {
        assert Holds(At(s'.pc, t)) == Some(b);
      }
    }
  }

  lemma ExclusiveAfterDial(s: State, a: Action, s': State)
    requires Inv(s) && Next(s, a, s') && a.DialEnds?
    ensures Exclusive(s')
  {
  }

  lemma ExclusiveAfterInstall(s: State, a: Action, s': State)
    requires Inv(s) && Next(s, a, s') && a.Installed?
    ensures Exclusive(s')
  {
  }

  lemma ExclusiveAfterTear(s: State, a: Action, s': State)
    requires Inv(s) && Next(s, a, s') && a.Torn?
    ensures Exclusive(s')
  {
  }

  lemma ExclusiveAfterShut(s: State, a: Action, s': State)
    requires Inv(s) && Next(s, a, s') && a.Shut?
    ensures Exclusive(s')
  {
  }

  lemma AccountedAfterDial(s: State, a: Action, s': State)
    requires Inv(s) && Next(s, a, s') && a.DialEnds?
    ensures Accounted(s')
  {
    forall b: Bundle | b < s'.fate.next ensures Somewhere(s', b) {
      if b == s.fate.next {
        assert Holds(At(s'.pc, a.t)) == Some(b);
      } else {
        HolderStays(s, a, s', b);
      }
    }
  }

  lemma AccountedAfterOthers(s: State, a: Action, s': State)
    requires Inv(s) && Next(s, a, s') && (a.Installed? || a.Torn? || a.Shut?)
    ensures Accounted(s')
  {
    forall b: Bundle | b < s'.fate.next ensures Somewhere(s', b) {
      HolderStays(s, a, s', b);
    }
  }

  /** A step moves only its own thread's bundle, and to another accounted place. */
  lemma HolderStays(s: State, a: Action, s': State, b: Bundle)
    requires Accounted(s) && Closing(s) && Next(s, a, s') && !Quiet(a) && b < s.fate.next
    ensures Somewhere(s', b)
  {
    assert Somewhere(s, b);
    if t: Tid :| Holds(At(s.pc, t)) == Some(b) {
      if t != a.t { assert At(s'.pc, t) == At(s.pc, t); }
      assert Holds(At(s'.pc, t)) == Some(b) || s'.cur == Some(b) || b in s'.fate.torn;
    } else if s.cur == Some(b) && s'.cur != Some(b) {
      assert Holds(At(s'.pc, a.t)) == Some(b);
    }
  }

  lemma HistoryAfterInstall(s: State, a: Action, s': State)
    requires Inv(s) && Next(s, a, s') && a.Installed?
    ensures History(s')
  {
    assert Justified(s, At(s.pc, a.t).seen, At(s.pc, a.t).stale, At(s.pc, a.t).wasDead);
  }

  lemma HistoryAfterOthers(s: State, a: Action, s': State)
    requires Inv(s) && Next(s, a, s') && (a.DialEnds? || a.Torn? || a.Shut?)
    ensures History(s')
  {
  }

  /** The steps of threads that hold reconnectMu or are about to take it. */
  lemma MutexKeptReconnecting(s: State, a: Action, s': State)
    requires Inv(s) && Next(s, a, s') && Reconnecting(a)
    ensures Mutex(s')
  {
  }

  lemma MutexKeptOutside(s: State, a: Action, s': State)
    requires Inv(s) && Next(s, a, s') && !Reconnecting(a)
    ensures Mutex(s')
  {
  }

  lemma ClosingKept(s: State, a: Action, s': State)
    requires Closing(s) && Next(s, a, s') && !a.Shut? && !a.Torn?
    ensures Closing(s')
  {
  }

  lemma ClosingAfterShut(s: State, a: Action, s': State)
    requires Inv(s) && Next(s, a, s') && (a.Shut? || a.Torn?)
    ensures Closing(s')
  {
  }

  lemma ReasonsKeptReconnecting(s: State, a: Action, s': State)
    requires Mutex(s) && Closing(s) && Reasons(s) && Next(s, a, s')
    requires Reconnecting(a)
    ensures Reasons(s')
  {
  }

  lemma ReasonsKeptOutside(s: State, a: Action, s': State)
    requires Mutex(s) && Closing(s) && Reasons(s) && Next(s, a, s')
    requires !Reconnecting(a)
    ensures Reasons(s')
  {
  }

  lemma ReasonsKept(s: State, a: Action, s': State)
    requires Mutex(s) && Closing(s) && Reasons(s) && Next(s, a, s')
    ensures Reasons(s')
  {
    if Reconnecting(a) { ReasonsKeptReconnecting(s, a, s'); } else { ReasonsKeptOutside(s, a, s'); }
  }

  lemma InvKept(s: State, a: Action, s': State)
    requires Inv(s) && Next(s, a, s')
    ensures Inv(s')
  {
    if Quiet(a) {
      QuietStays(s, a, s');
      PlacesKept(s, s');
    } else {
      if a.DialEnds? { AccountedAfterDial(s, a, s'); } else { AccountedAfterOthers(s, a, s'); }
      if a.Installed? { HistoryAfterInstall(s, a, s'); } else { HistoryAfterOthers(s, a, s'); }
      if a.DialEnds? { ExclusiveAfterDial(s, a, s'); }
      if a.Installed? { ExclusiveAfterInstall(s, a, s'); }
      if a.Torn? { ExclusiveAfterTear(s, a, s'); }
      if a.Shut? { ExclusiveAfterShut(s, a, s'); }
    }
    if Reconnecting(a) { MutexKeptReconnecting(s, a, s'); } else { MutexKeptOutside(s, a, s'); }
    if a.Shut? || a.Torn? { ClosingAfterShut(s, a, s'); } else { ClosingKept(s, a, s'); }
    ReasonsKept(s, a, s');
  }

  // ---------------------------------------------------------------- whole runs

  ghost predicate Run(ss: seq<State>, acts: seq<Action>) {
    && |ss| == |acts| + 1
    && Init(ss[0])
    && forall i :: 0 <= i < |acts| ==> Next(ss[i], acts[i], ss[i + 1])
  }

  lemma {:induction false} RunKeepsInv(ss: seq<State>, acts: seq<Action>, i: nat)
    requires Run(ss, acts) && i < |ss|
    ensures Inv(ss[i])
  {
    if i == 0 {
      InitKeeps(ss[0]);
    } else {
      RunKeepsInv(ss, acts, i - 1);
      StepKeepsInv(ss, acts, i - 1, i);
    }
  }

  lemma StepKeepsInv(ss: seq<State>, acts: seq<Action>, i: nat, j: nat)
    requires Run(ss, acts) && i < |acts| && j == i + 1 && Inv(ss[i])
    ensures Inv(ss[j])
  {
    InvKept(ss[i], acts[i], ss[j]);
  }

  /** Conservation: at every point of every run, each bundle ever dialed is in exactly one place,
      namely current, in the hands of exactly one thread, or torn down; and once the client is
      constructed there is a current bundle exactly until it is closed. */
  lemma Conservation(ss: seq<State>, acts: seq<Action>, i: nat, b: Bundle)
    requires Run(ss, acts) && i < |ss| && b < ss[i].fate.next
    ensures var s := ss[i];
            && (s.cur == Some(b) ==> b !in s.fate.torn && forall t: Tid :: Holds(At(s.pc, t)) != Some(b))
            && (b in s.fate.torn ==> forall t: Tid :: Holds(At(s.pc, t)) != Some(b))
            && (s.cur != Some(b) && b !in s.fate.torn ==> exists t: Tid :: Holds(At(s.pc, t)) == Some(b))
            && (forall t: Tid, u: Tid :: Holds(At(s.pc, t)) == Holds(At(s.pc, u)) == Some(b) ==> t == u)
            && (s.cur.None? <==> s.closed)
  {
    RunKeepsInv(ss, acts, i);
    assert Somewhere(ss[i], b);
  }

  /** A bundle is torn down at most once. */
  lemma TornAtMostOnce(ss: seq<State>, acts: seq<Action>, i: nat, j: nat)
    requires Run(ss, acts) && i < j < |acts| && acts[i].Torn? && acts[j].Torn?
    ensures Holds(At(ss[i].pc, acts[i].t)).Some? && Holds(At(ss[j].pc, acts[j].t)).Some?
    ensures Holds(At(ss[i].pc, acts[i].t)) != Holds(At(ss[j].pc, acts[j].t))
  {
    assert Next(ss[i], acts[i], ss[i + 1]);
    assert Next(ss[j], acts[j], ss[j + 1]);
    RunKeepsInv(ss, acts, j);
    TornStays(ss, acts, i + 1, j);
  }

  lemma {:induction false} TornStays(ss: seq<State>, acts: seq<Action>, i: nat, j: nat)
    requires Run(ss, acts) && i <= j < |ss|
    ensures ss[i].fate.torn <= ss[j].fate.torn
    decreases j
  {
    if i < j {
      TornStays(ss, acts, i, j - 1);
      assert Next(ss[j - 1], acts[j - 1], ss[j]);
    }
  }

  /** Once Close has returned to any caller and no thread is inside reconnect, every bundle ever
      dialed has been torn down. */
  lemma AllTornAfterClose(ss: seq<State>, acts: seq<Action>, i: nat)
    requires Run(ss, acts) && i < |ss| && ss[i].once.finished
    requires forall t: Tid :: !InReconnect(At(ss[i].pc, t))
    ensures forall b: Bundle :: b < ss[i].fate.next ==> b in ss[i].fate.torn
  {
    RunKeepsInv(ss, acts, i);
    forall b: Bundle | b < ss[i].fate.next ensures b in ss[i].fate.torn {
      assert Somewhere(ss[i], b);
    }
  }

  /** A thread is past Close only when the one run of its body is over. */
  lemma CloseReturnsFinished(s: State, a: Action, s': State)
    requires Inv(s) && Next(s, a, s')
    requires (a.Shut? || a.OnceReturns? || (a.Torn? && At(s.pc, a.t).ShutTear?)) && At(s'.pc, a.t).Done?
    ensures s'.once.finished && s'.closed
  {
  }

  /** Over every run: what was replaced had been dead when reconnect looked, or was the bundle
      its caller reported; and no bundle is replaced twice, however many threads report it. */
  lemma ReplacedOnlyWithReason(ss: seq<State>, acts: seq<Action>, i: nat)
    requires Run(ss, acts) && i < |ss|
    ensures forall k :: 0 <= k < |ss[i].log| ==> ss[i].log[k].wasDead || ss[i].log[k].stale == Some(ss[i].log[k].old_)
    ensures forall j, k :: 0 <= j < k < |ss[i].log| ==> ss[i].log[j].old_ != ss[i].log[k].old_
    ensures forall k :: 0 <= k < |ss[i].log| ==> ss[i].cur != Some(ss[i].log[k].old_)
  {
    RunKeepsInv(ss, acts, i);
  }

  /** When reconnect dials: the client is closed or has no bundle, the bundle has died, or it is
      the one the caller reported. In every other case it leaves things as they are. */
  lemma WhenReconnectDials(ss: seq<State>, acts: seq<Action>, i: nat)
    requires Run(ss, acts) && i < |acts| && acts[i].Checked?
    ensures At(ss[i].pc, acts[i].t).Check?
    ensures var s, p := ss[i], At(ss[i + 1].pc, acts[i].t);
            && (p.Dial?
                <==> s.closed || s.cur.None? || s.cur.value in s.fate.dead || s.cur == At(s.pc, acts[i].t).stale)
            && (p.Dial? || p == Unlock(true))
  {
    assert Next(ss[i], acts[i], ss[i + 1]);
  }

  /** What openRequestStream opens a stream on, the first time and after a reconnect: the current
      bundle, and only while the client is open and the bundle alive; otherwise it reconnects the
      first time and gives up the second. */
  lemma WhatIsOpened(ss: seq<State>, acts: seq<Action>, i: nat)
    requires Run(ss, acts) && i < |acts| && (acts[i].Looked? || acts[i].LookedAgain?)
    ensures var s, p := ss[i], At(ss[i + 1].pc, acts[i].t);
            if !s.closed && s.cur.Some? && s.cur.value !in s.fate.dead
            then p == if acts[i].Looked? then Open(s.cur.value) else Reopen(s.cur.value)
            else p == if acts[i].Looked? then Lock(None) else Done(false)
  {
    assert Next(ss[i], acts[i], ss[i + 1]);
  }

  /** A stream that cannot be opened, for a caller still waiting for it, is a report on its bundle. */
  lemma FailureIsReported(ss: seq<State>, acts: seq<Action>, i: nat)
    requires Run(ss, acts) && i < |acts| && acts[i].OpenEnds? && !acts[i].ok && !acts[i].cancelled
    ensures At(ss[i].pc, acts[i].t).Open?
    ensures At(ss[i + 1].pc, acts[i].t) == Lock(Some(At(ss[i].pc, acts[i].t).b))
  {
    assert Next(ss[i], acts[i], ss[i + 1]);
  }

  /** What a reconnect installs is current, new, and not the bundle that was there; that one is
      left to the installing thread to tear down. */
  lemma InstalledIsCurrent(ss: seq<State>, acts: seq<Action>, i: nat)
    requires Run(ss, acts) && i < |acts| && acts[i].Installed? && !ss[i].closed
    ensures At(ss[i].pc, acts[i].t).Install? && ss[i + 1].cur == Some(At(ss[i].pc, acts[i].t).b)
    ensures ss[i].cur.Some? && ss[i].cur != ss[i + 1].cur && At(ss[i + 1].pc, acts[i].t) == CloseOld(ss[i].cur.value)
    ensures ss[i + 1].cur.value !in ss[i + 1].fate.torn
  {
    RunKeepsInv(ss, acts, i);
    assert Next(ss[i], acts[i], ss[i + 1]);
  }

  /** A report that comes after its bundle has been replaced by a live one dials nothing. */
  lemma LateReportDialsNothing(ss: seq<State>, acts: seq<Action>, i: nat, k: nat)
    requires Run(ss, acts) && i < |acts| && acts[i].Checked? && k < |ss[i].log| && At(ss[i].pc, acts[i].t).Check?
    requires At(ss[i].pc, acts[i].t).stale == Some(ss[i].log[k].old_)
    requires !ss[i].closed && ss[i].cur.Some? && ss[i].cur.value !in ss[i].fate.dead
    ensures At(ss[i + 1].pc, acts[i].t) == Unlock(true)
  {
    RunKeepsInv(ss, acts, i);
    WhenReconnectDials(ss, acts, i);
  }

  /** How a reconnect ends: well when it found a living bundle other than the one reported, or
      installed its own and dropped the DNS connection of the old one; badly when it could not
      dial or came too late. */
  lemma HowReconnectEnds(ss: seq<State>, acts: seq<Action>, i: nat, t: Tid)
    requires Run(ss, acts) && i < |acts| && !At(ss[i].pc, t).Unlock? && At(ss[i + 1].pc, t).Unlock?
    ensures if At(ss[i + 1].pc, t).ok then
              || acts[i] == Invalidated(t)
              || (acts[i] == Checked(t) && !ss[i].closed && ss[i].cur.Some? && ss[i].cur.value !in ss[i].fate.dead)
            else acts[i] == DialEnds(t, false) || (acts[i] == Torn(t) && At(ss[i].pc, t).Drop?)
  {
    assert Next(ss[i], acts[i], ss[i + 1]);
  }

  /** After a reconnect that went well the stream is asked for once more, and otherwise not. */
  lemma OneMoreTry(ss: seq<State>, acts: seq<Action>, i: nat)
    requires Run(ss, acts) && i < |acts| && acts[i].Unlocked?
    ensures At(ss[i].pc, acts[i].t).Unlock? && ss[i + 1].mu.None?
    ensures At(ss[i + 1].pc, acts[i].t) == if At(ss[i].pc, acts[i].t).ok then Second else Done(false)
  {
    assert Next(ss[i], acts[i], ss[i + 1]);
  }

  predicate GetsStream(a: Action, t: Tid) {
    (a.OpenEnds? || a.ReopenEnds?) && a.t == t && a.ok
  }

  predicate ReturnsFromClose(s: State, a: Action, t: Tid) {
    (a.Shut? || a.OnceReturns? || (a.Torn? && At(s.pc, t).ShutTear?)) && a.t == t
  }

  lemma EndsWell(ss: seq<State>, acts: seq<Action>, i: nat, j: nat, t: Tid)
    requires Run(ss, acts) && i < |acts| && j == i + 1
    ensures At(ss[i].pc, t).Done? ==> At(ss[j].pc, t) == At(ss[i].pc, t)
    ensures GetsStream(acts[i], t) ==> At(ss[j].pc, t) == Done(true)
    ensures At(ss[j].pc, t) == Done(true) && At(ss[i].pc, t) != Done(true) ==>
              GetsStream(acts[i], t) || ReturnsFromClose(ss[i], acts[i], t)
  {
    assert Next(ss[i], acts[i], ss[j]);
  }

  /** Over every run: whoever got a stream open ends with it, whatever happens to the bundles
      afterwards, and nobody else ends well but the callers of Close. */
  lemma {:induction false} StreamsAreReturned(ss: seq<State>, acts: seq<Action>, i: nat, t: Tid)
    requires Run(ss, acts) && i < |ss|
    ensures (exists j :: 0 <= j < i && GetsStream(acts[j], t)) ==> At(ss[i].pc, t) == Done(true)
    ensures At(ss[i].pc, t) == Done(true) ==>
              exists j :: 0 <= j < i && (GetsStream(acts[j], t) || ReturnsFromClose(ss[j], acts[j], t))
  {
    if i > 0 {
      var h := i - 1;
      StreamsAreReturned(ss, acts, h, t);
      EndsWell(ss, acts, h, i, t);
    }
  }

  /** Replacements are serialised: two threads are never both inside reconnect. */
  lemma OneReconnectAtATime(ss: seq<State>, acts: seq<Action>, i: nat, t: Tid, u: Tid)
    requires Run(ss, acts) && i < |ss| && InReconnect(At(ss[i].pc, t)) && InReconnect(At(ss[i].pc, u))
    ensures t == u
  {
    RunKeepsInv(ss, acts, i);
  }
}
