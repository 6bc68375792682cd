/** What follows for whole runs of the machine of DohSlot: one dial at a time, connections that
    never come back once retired, and exactly what Close leaves in the slot. */
module DohTheorems {
  import opened Basics
  import opened DohSlot
  import opened DohInvariant

  /** A run: any number of threads, in any interleaving. */
  ghost predicate Run(ss: seq<State>, acts: seq<Action>) {
    && |ss| == |acts| + 1
    && Init(ss[0])
    && forall i :: 0 <= i < |acts| ==> Next(ss[i], acts[i], ss[i + 1])
  }

  lemma {:induction false} RunKeepsInv(ss: seq<State>, acts: seq<Action>, i: nat)
    requires Run(ss, acts) && i < |ss|
    ensures Inv(ss[i])
  {
    if i == 0 {
      InitKeeps(ss[0]);
    } else {
      RunKeepsInv(ss, acts, i - 1);
      InvKept(ss[i - 1], acts[i - 1], ss[i]);
    }
  }

  // ---------------------------------------------------------------- coalescing

  /** In every interleaving at most one dial is in flight, and dohDial is set exactly while its
      owner is between registering and publishing. */
  lemma OneDialInFlight(ss: seq<State>, acts: seq<Action>, i: nat, t: Tid, u: Tid)
    requires Run(ss, acts) && i < |ss|
    ensures Owning(At(ss[i].threads, t)) && Owning(At(ss[i].threads, u)) ==> t == u
    ensures Owning(At(ss[i].threads, t)) ==> ss[i].dials.dial.Some? && ss[i].dials.dial.value.owner == t
    ensures ss[i].dials.dial.Some? ==> Owning(At(ss[i].threads, ss[i].dials.dial.value.owner))
  {
    RunKeepsInv(ss, acts, i);
    assert Shape(At(ss[i].threads, t)) && Shape(At(ss[i].threads, u));
    if ss[i].dials.dial.Some? { assert Shape(At(ss[i].threads, ss[i].dials.dial.value.owner)); }
  }

  /** A flight's result is written once and its channel closed once, after that. */
  lemma FlightsEndOnce(ss: seq<State>, acts: seq<Action>, i: nat)
    requires Run(ss, acts) && i < |acts|
    ensures acts[i].Publishes? ==> (var f := At(ss[i].threads, acts[i].t).owns;
                                    f.Some? && f.value !in ss[i].dials.results && f.value !in ss[i].dials.done)
    ensures acts[i].Signals? ==> (var f := At(ss[i].threads, acts[i].t).signals;
                                  f.Some? && f.value in ss[i].dials.results && f.value !in ss[i].dials.done)
  {
    RunKeepsInv(ss, acts, i);
    assert Next(ss[i], acts[i], ss[i + 1]);
  }

  /** What a flight publishes has been in the slot. */
  ghost predicate PublishedConns(s: State) {
    forall f :: f in s.dials.results && s.dials.results[f].Some? ==> HandedOut(s, s.dials.results[f].value)
  }

  lemma ResultStays(s: State, a: Action, s': State, f: Flight)
    requires Next(s, a, s') && f in s'.dials.results && s'.dials.results[f].Some?
    ensures (f in s.dials.results && s'.dials.results[f] == s.dials.results[f]) || s'.slot == s'.dials.results[f]
  {
  }

  lemma {:induction false} ResultsWereInstalled(ss: seq<State>, acts: seq<Action>, i: nat)
    requires Run(ss, acts) && i < |ss|
    ensures PublishedConns(ss[i])
  {
    if i > 0 {
      ResultsWereInstalled(ss, acts, i - 1);
      forall f | f in ss[i].dials.results && ss[i].dials.results[f].Some?
        ensures HandedOut(ss[i], ss[i].dials.results[f].value)
      {
        ResultStays(ss[i - 1], acts[i - 1], ss[i], f);
        if ss[i].slot != ss[i].dials.results[f] {
          OutStaysOut(ss[i - 1], acts[i - 1], ss[i], ss[i].dials.results[f].value);
        }
      }
    }
  }

  lemma OutStaysOut(s: State, a: Action, s': State, d: Conn)
    requires Next(s, a, s') && HandedOut(s, d)
    ensures HandedOut(s', d)
  {
  }

  /** A waiter leaves its flight in one of three ways: with its own context's error; with the
      owner's error; or, after a success, by checking the slot again, and then the connection the
      owner dialed has by now been in the slot, whether or not it still is. */
  lemma HowWaitersEnd(ss: seq<State>, acts: seq<Action>, i: nat)
    requires Run(ss, acts) && i < |acts| && At(ss[i].threads, acts[i].t).pc.Wait?
    ensures var f := At(ss[i].threads, acts[i].t).waits;
            var after := At(ss[i + 1].threads, acts[i].t);
            f.Some?
            && ((acts[i].GivesUp? && after.pc.Done? && after.end == ContextError)
                || (acts[i].Wakes? && f.value in ss[i].dials.results && f.value in ss[i].dials.done
                    && (match ss[i].dials.results[f.value]
                        case None => after.pc.Done? && after.end == FlightError(f.value)
                        case Some(d) => after.pc.Live? && HandedOut(ss[i], d))))
  {
    RunKeepsInv(ss, acts, i);
    ResultsWereInstalled(ss, acts, i);
    WaiterMoves(ss[i], acts[i], ss[i + 1]);
  }

  lemma WaiterMoves(s: State, a: Action, s': State)
    requires Shape(At(s.threads, a.t)) && Published(s) && Next(s, a, s') && At(s.threads, a.t).pc.Wait?
    ensures var f := At(s.threads, a.t).waits;
            var after := At(s'.threads, a.t);
            f.Some?
            && ((a.GivesUp? && after.pc.Done? && after.end == ContextError)
                || (a.Wakes? && f.value in s.dials.results && f.value in s.dials.done
                    && if s.dials.results[f.value].None? then after.pc.Done? && after.end == FlightError(f.value)
                       else after.pc.Live?))
  {
  }

  /** No waiter is forgotten: while its flight is not done, some thread is still dialing,
      checking, publishing or signalling for it, and that thread has a step of its own to take
      that brings it closer to being done. */
  lemma WaitersAreServed(ss: seq<State>, acts: seq<Action>, i: nat, w: Tid) returns (t: Tid, a: Action, next: State)
    requires Run(ss, acts) && i < |ss| && At(ss[i].threads, w).pc.Wait?
    requires At(ss[i].threads, w).waits.Some? && At(ss[i].threads, w).waits.value !in ss[i].dials.done
    ensures var th := At(ss[i].threads, t);
            th.owns == At(ss[i].threads, w).waits || th.signals == At(ss[i].threads, w).waits
    ensures a.t == t && Next(ss[i], a, next) && Work(At(next.threads, t)) < Work(At(ss[i].threads, t))
  {
    RunKeepsInv(ss, acts, i);
    var s := ss[i];
    var f := At(s.threads, w).waits.value;
    assert BeingWorked(s, f);
    if s.dials.dial.Some? && s.dials.dial.value.id == f {
      t := s.dials.dial.value.owner;
    } else {
      t :| At(s.threads, t).signals == Some(f);
    }
    assert Shape(At(s.threads, t));
    a, next := WorkerStep(s, t);
    WorkerMoves(s, a, next);
  }

  /** What a thread has still to do for its flight. */
  function Work(th: Thread): nat {
    match th.pc
    case Dialing => 5
    case FirstCheck => 4
    case CloseVictim => if th.resume.Publish? then 3 else 0
    case Publish => 2
    case Signal => 1
    case _ => 0
  }

  predicate Working(th: Thread) {
    th.owns.Some? || th.signals.Some?
  }

  /** The flight it works for. */
  function WorksFor(th: Thread): Option<Flight> {
    if th.owns.Some? then th.owns else th.signals
  }

  /** Every step of the worker lowers it, whichever way the dial and the checks go, and no step
      of another thread touches it: a flight is done after at most five steps of its worker. */
  lemma WorkersFinish(ss: seq<State>, acts: seq<Action>, i: nat, t: Tid)
    requires Run(ss, acts) && i < |acts| && Working(At(ss[i].threads, t))
    ensures 0 < Work(At(ss[i].threads, t)) <= 5
    ensures acts[i].t == t ==> Work(At(ss[i + 1].threads, t)) < Work(At(ss[i].threads, t))
    ensures acts[i].t != t ==> At(ss[i + 1].threads, t) == At(ss[i].threads, t)
    ensures var f := WorksFor(At(ss[i].threads, t));
            f.Some? && (WorksFor(At(ss[i + 1].threads, t)) == f || f.value in ss[i + 1].dials.done)
  {
    RunKeepsInv(ss, acts, i);
    assert Shape(At(ss[i].threads, t)) && Next(ss[i], acts[i], ss[i + 1]);
    WorkersHaveWork(At(ss[i].threads, t));
    if acts[i].t == t { WorkerMoves(ss[i], acts[i], ss[i + 1]); } else { OthersStay(ss[i], acts[i], ss[i + 1]); }
  }

  lemma WorkerMoves(s: State, a: Action, s': State)
    requires Shape(At(s.threads, a.t)) && Working(At(s.threads, a.t)) && Next(s, a, s')
    ensures Work(At(s'.threads, a.t)) < Work(At(s.threads, a.t))
    ensures var f := WorksFor(At(s.threads, a.t));
            f.Some? && (WorksFor(At(s'.threads, a.t)) == f || f.value in s'.dials.done)
  {
  }

  lemma WorkersHaveWork(th: Thread)
    requires Shape(th) && Working(th)
    ensures 0 < Work(th) <= 5 && WorksFor(th).Some?
  {
  }

  lemma WorkerStep(s: State, t: Tid) returns (a: Action, next: State)
    requires Shape(At(s.threads, t)) && (At(s.threads, t).owns.Some? || At(s.threads, t).signals.Some?)
    ensures a.t == t && Next(s, a, next)
  {
    var th := At(s.threads, t);
    if th.pc.Dialing? {
      a := DialEnds(t, false);
      next := s.(threads := Set(s.threads, t, th.(pc := Publish)));
    } else if th.pc.FirstCheck? {
      a := FirstChecked(t);
      next := s.(threads := Set(s.threads, t, if s.close.closed then th.(pc := CloseVictim, resume := Publish)
                                else th.(pc := Publish)));
    } else if th.pc.CloseVictim? {
      a := Closes(t);
      next := s.(fate := s.fate.(shut := s.fate.shut + {th.hand.value}),
                 threads := Set(s.threads, t, th.(pc := th.resume, hand := None)));
    } else if th.pc.Publish? {
      a := Publishes(t);
      var over := if th.hand.Some? then s.slot else None;
      next := s.(slot := Installed(s.slot, th.hand),
                 dials := s.dials.(dial := None, results := s.dials.results[th.owns.value := th.hand]),
                 fate := s.fate.(lost := Leaves(s.fate.lost, over), left := Leaves(s.fate.left, over)),
                 close := s.close.(late := if s.close.swept then Leaves(s.close.late, th.hand) else s.close.late),
                 threads := Set(s.threads, t,
                                th.(pc := Signal, owns := None, signals := th.owns, hand := None, pending := th.hand)));
    } else {
      a := Signals(t);
      next := s.(dials := s.dials.(done := s.dials.done + {th.signals.value}),
                 threads := Set(s.threads, t, if th.pending.Some? then th.(pc := SecondCheck, signals := None)
                                              else th.(pc := Done, end := DialError, signals := None)));
    }
  }

  // ---------------------------------------------------------------- retirement

  lemma {:induction false} LeftAlong(ss: seq<State>, i: nat, j: nat)
    requires (forall k: nat :: k + 1 < |ss| ==> ss[k].fate.left <= ss[k + 1].fate.left) && i <= j < |ss|
    ensures ss[i].fate.left <= ss[j].fate.left
    decreases j
  {
    if i < j {
      LeftAlong(ss, i, j - 1);
      assert ss[j - 1].fate.left <= ss[(j - 1) + 1].fate.left;
    }
  }

  lemma LeftIsOut(ss: seq<State>, acts: seq<Action>, i: nat, d: Conn)
    requires Run(ss, acts) && i < |ss| && d in ss[i].fate.left
    ensures ss[i].slot != Some(d)
  {
    RunKeepsInv(ss, acts, i);
  }

  /** A connection that has left the slot never re-enters it. */
  lemma RetiredNeverReturns(ss: seq<State>, acts: seq<Action>, i: nat, j: nat, d: Conn)
    requires Run(ss, acts) && i <= j < |ss| && d in ss[i].fate.left
    ensures d in ss[j].fate.left && ss[j].slot != Some(d)
  {
    forall k: nat | k + 1 < |ss| ensures ss[k].fate.left <= ss[k + 1].fate.left {
      LeftGrows(ss[k], acts[k], ss[k + 1]);
    }
    LeftAlong(ss, i, j);
    LeftIsOut(ss, acts, j, d);
  }

  lemma LeftGrows(s: State, a: Action, s': State)
    requires Next(s, a, s')
    ensures s.fate.left <= s'.fate.left && s.fate.shut <= s'.fate.shut && s.fate.lost <= s'.fate.lost
            && s.fate.next <= s'.fate.next
  {
  }

  /** What a lookup finds: a usable connection is left in place and used; a dead one is retired
      and closed before the lookup dials; and with none there it dials. */
  lemma WhatALookupFinds(ss: seq<State>, acts: seq<Action>, i: nat)
    requires Run(ss, acts) && i < |acts| && acts[i].LiveEnds?
    ensures var s, s', th' := ss[i], ss[i + 1], At(ss[i + 1].threads, acts[i].t);
            if s.slot.None? then s'.slot.None? && s'.fate == s.fate && th'.pc.Claim?
            else if acts[i].dead then
              s'.slot.None? && s'.fate.left == s.fate.left + {s.slot.value}
              && th'.pc.CloseVictim? && th'.hand == s.slot && th'.resume.Claim?
            else s'.slot == s.slot && s'.fate == s.fate && th'.pc.Query? && th'.uses == s.slot
  {
    assert Next(ss[i], acts[i], ss[i + 1]);
  }

  /** The first check after a dial: on a client that is already closed the connection is closed
      before anyone has seen it, and its flight publishes none. */
  lemma WhatTheFirstCheckDoes(ss: seq<State>, acts: seq<Action>, i: nat)
    requires Run(ss, acts) && i < |acts| && acts[i].FirstChecked?
    ensures var s, th, th' := ss[i], At(ss[i].threads, acts[i].t), At(ss[i + 1].threads, acts[i].t);
            && th.hand.Some? && th'.hand == th.hand && s.slot != th.hand && th.hand.value !in s.fate.left
            && if s.close.closed then th'.pc.CloseVictim? && th'.resume.Publish? else th'.pc.Publish?
  {
    RunKeepsInv(ss, acts, i);
    assert Next(ss[i], acts[i], ss[i + 1]) && Shape(At(ss[i].threads, acts[i].t));
  }

  /** What becomes of the thread that dials: its own new connection or an error, nothing when the
      client was closed meanwhile, and otherwise its question goes on what it installed. */
  lemma WhatTheOwnerGets(ss: seq<State>, acts: seq<Action>, i: nat)
    requires Run(ss, acts) && i < |acts|
    ensures var s, th, th' := ss[i], At(ss[i].threads, acts[i].t), At(ss[i + 1].threads, acts[i].t);
            && (acts[i].DialEnds? ==>
                  if acts[i].ok then th'.pc.FirstCheck? && th'.hand.Some? && !HandedOut(s, th'.hand.value)
                  else th'.pc.Publish? && th'.hand.None?)
            && (acts[i].Signals? ==>
                  if th.pending.Some? then th'.pc.SecondCheck? else th'.pc.Done? && th'.end == DialError)
            && (acts[i].SecondChecked? ==>
                  if s.close.closed then th'.pc.Invalidate? && th'.resume.Done? && th'.pending == th.pending
                  else th'.pc.Query? && th'.uses == th.pending && th'.uses.Some?)
  {
    RunKeepsInv(ss, acts, i);
    assert Next(ss[i], acts[i], ss[i + 1]) && Resumes(At(ss[i].threads, acts[i].t));
  }

  /** An invalidation that names no connection, as a reconnect's, takes out whatever is there, and
      so does Close's. */
  lemma UnnamedEmptiesTheSlot(ss: seq<State>, acts: seq<Action>, i: nat)
    requires Run(ss, acts) && i < |acts|
    requires acts[i].Sweeps?
             || (acts[i].Invalidates? && At(ss[i].threads, acts[i].t).pending.None?
                 && At(ss[i].threads, acts[i].t).uses.None?)
    ensures ss[i + 1].slot.None?
    ensures ss[i].slot.Some? ==>
              ss[i].slot.value in ss[i + 1].fate.left && At(ss[i + 1].threads, acts[i].t).hand == ss[i].slot
  {
    assert Next(ss[i], acts[i], ss[i + 1]);
  }

  /** An invalidation that names a connection retires it for good and retires no other: a report
      on a connection already replaced does not drop its successor. */
  lemma InvalidationIsGuarded(ss: seq<State>, acts: seq<Action>, i: nat, j: nat)
    requires Run(ss, acts) && i < |acts| && acts[i].Invalidates? && i < j < |ss|
    ensures var th := At(ss[i].threads, acts[i].t);
            var stale := if th.pending.Some? then th.pending else th.uses;
            stale.Some? ==> ss[i + 1].fate.left == ss[i].fate.left + {stale.value}
                            && (ss[i].slot != stale ==> ss[i + 1].slot == ss[i].slot)
                            && stale.value in ss[j].fate.left && ss[j].slot != stale
  {
    RunKeepsInv(ss, acts, i);
    var th := At(ss[i].threads, acts[i].t);
    var stale := if th.pending.Some? then th.pending else th.uses;
    if stale.Some? {
      assert HandedOut(ss[i], stale.value);
      InvalidationTakes(ss[i], acts[i], ss[i + 1]);
      RetiredNeverReturns(ss, acts, i + 1, j, stale.value);
    }
  }

  lemma InvalidationTakes(s: State, a: Action, s': State)
    requires Next(s, a, s') && a.Invalidates?
    ensures var th := At(s.threads, a.t);
            var taken := InvalidateSection(s.slot, if th.pending.Some? then th.pending else th.uses);
            s'.slot == taken.slot && s'.fate.left == Leaves(s.fate.left, taken.victim)
  {
  }

  /** A question that fails on the link sets its goroutine to invalidating the connection it was
      put on, and by the time the failure is reported that connection is retired. The lookup then
      looks for a connection again. */
  lemma FailedLinksAreRetired(ss: seq<State>, acts: seq<Action>, i: nat)
    requires Run(ss, acts) && i < |acts|
    ensures var th, th' := At(ss[i].threads, acts[i].t), At(ss[i + 1].threads, acts[i].t);
            && (acts[i].AskEnds? && acts[i].transport ==>
                  th'.pc.Invalidate? && th'.resume.Report? && th'.uses == th.uses && th.uses.Some?)
            && (acts[i].AskEnds? && !acts[i].transport ==> th'.pc.Done? && ss[i + 1].slot == ss[i].slot)
            && (acts[i].QueryRetries? ==> th'.pc.Live? && th'.failed == th.uses && th.uses.Some?)
            && (acts[i].Reports? ==>
                  th.uses.Some? && th.uses.value in ss[i].fate.left && th.uses.value in ss[i + 1].fate.reported)
  {
    RunKeepsInv(ss, acts, i);
    assert Next(ss[i], acts[i], ss[i + 1]) && Resumes(At(ss[i].threads, acts[i].t));
  }

  /** The one retry of a lookup, after a transport failure on a connection, always puts its
      question on a different one; the failed one is out of the slot for good. */
  lemma RetryUsesAnotherConnection(ss: seq<State>, acts: seq<Action>, i: nat, j: nat)
    requires Run(ss, acts) && i < j < |ss| && i < |acts| && acts[i].QueryRetries?
    requires At(ss[j].threads, acts[i].t).pc.Query?
    ensures var failed := At(ss[i].threads, acts[i].t).uses;
            failed.Some? && failed.value in ss[j].fate.left && ss[j].slot != failed
            && At(ss[j].threads, acts[i].t).uses.Some? && At(ss[j].threads, acts[i].t).uses != failed
  {
    assert Next(ss[i], acts[i], ss[i + 1]);
    FailureIsRemembered(ss, acts, i + 1, j, acts[i].t);
    RunKeepsInv(ss, acts, j);
    assert Resumes(At(ss[j].threads, acts[i].t));
  }

  lemma {:induction false} FailureIsRemembered(ss: seq<State>, acts: seq<Action>, i: nat, j: nat, t: Tid)
    requires Run(ss, acts) && i <= j < |ss| && At(ss[i].threads, t).failed.Some?
    ensures At(ss[j].threads, t).failed == At(ss[i].threads, t).failed
    decreases j
  {
    if i < j {
      FailureIsRemembered(ss, acts, i, j - 1, t);
      FailedStays(ss[j - 1], acts[j - 1], ss[j], t);
    }
  }

  lemma FailedStays(s: State, a: Action, s': State, t: Tid)
    requires Next(s, a, s') && At(s.threads, t).failed.Some?
    ensures At(s'.threads, t).failed == At(s.threads, t).failed
  {
  }

  // ---------------------------------------------------------------- conservation

  /** Every connection ever dialed is in exactly one place: the slot, one thread's hands, closed,
      or overwritten in the slot. */
  lemma Conservation(ss: seq<State>, acts: seq<Action>, i: nat, d: Conn)
    requires Run(ss, acts) && i < |ss| && d < ss[i].fate.next
    ensures var s := ss[i];
            && Somewhere(s, d)
            && (s.slot == Some(d) ==>
                  d !in s.fate.shut && d !in s.fate.lost && forall t: Tid :: At(s.threads, t).hand != Some(d))
            && (d in s.fate.shut ==> d !in s.fate.lost && forall t: Tid :: At(s.threads, t).hand != Some(d))
            && (d in s.fate.lost ==> forall t: Tid :: At(s.threads, t).hand != Some(d))
            && (forall t: Tid, u: Tid :: At(s.threads, t).hand == At(s.threads, u).hand == Some(d) ==> t == u)
  {
    RunKeepsInv(ss, acts, i);
  }

  /** Nothing is closed twice. */
  lemma ClosedAtMostOnce(ss: seq<State>, acts: seq<Action>, i: nat)
    requires Run(ss, acts) && i < |acts| && acts[i].Closes?
    ensures At(ss[i].threads, acts[i].t).hand.Some? && At(ss[i].threads, acts[i].t).hand.value !in ss[i].fate.shut
  {
    RunKeepsInv(ss, acts, i);
    assert Next(ss[i], acts[i], ss[i + 1]);
  }

  /** A connection is lost exactly when a thread installs what it dialed over the very connection
      that it found in the slot when it claimed the dial. With the slot empty at the claim, or
      emptied since, nothing is lost. */
  lemma OverwritesOnlyWhatTheClaimSaw(ss: seq<State>, acts: seq<Action>, i: nat)
    requires Run(ss, acts) && i < |acts|
    ensures var th := At(ss[i].threads, acts[i].t);
            ss[i + 1].fate.lost != ss[i].fate.lost
            <==> acts[i].Publishes? && th.hand.Some? && th.seen.Some? && ss[i].slot == th.seen
    ensures ss[i + 1].fate.lost != ss[i].fate.lost ==>
              ss[i].slot.Some? && ss[i + 1].fate.lost == ss[i].fate.lost + {ss[i].slot.value}
  {
    RunKeepsInv(ss, acts, i);
    assert Next(ss[i], acts[i], ss[i + 1]);
    if ss[i].slot.Some? { assert ss[i].slot.value !in ss[i].fate.lost; }
    if ss[i + 1].fate.lost != ss[i].fate.lost {
      LostGrowsOnlyByPublishing(ss[i], acts[i], ss[i + 1]);
    }
    if acts[i].Publishes? { PublishingLoses(ss[i], acts[i], ss[i + 1]); }
  }

  lemma PublishingLoses(s: State, a: Action, s': State)
    requires Next(s, a, s') && a.Publishes? && Shape(At(s.threads, a.t))
    ensures At(s.threads, a.t).owns.Some?
    ensures s'.fate.lost == if At(s.threads, a.t).hand.Some? then Leaves(s.fate.lost, s.slot) else s.fate.lost
  {
  }

  lemma LostGrowsOnlyByPublishing(s: State, a: Action, s': State)
    requires Next(s, a, s') && s'.fate.lost != s.fate.lost
    ensures a.Publishes? && s.slot.Some? && s'.fate.lost == s.fate.lost + {s.slot.value}
  {
  }

  // ---------------------------------------------------------------- Close against a racing dial

  /** Close is over and every installed connection has had its second check. */
  ghost predicate ClosedAndChecked(s: State) {
    s.close.closed && s.close.swept && forall t: Tid :: At(s.threads, t).pending.None?
  }

  /** A connection slips through Close: its installation and its second check both happen after
      Close's invalidation and before closed is set. */
  ghost predicate SlippedAt(ss: seq<State>, acts: seq<Action>, j: nat, k: nat, d: Conn)
    requires |ss| == |acts| + 1 && j < k < |acts|
  {
    && acts[j].Publishes? && At(ss[j].threads, acts[j].t).hand == Some(d) && ss[j].close.swept && !ss[j].close.closed
    && acts[k].SecondChecked? && At(ss[k].threads, acts[k].t).pending == Some(d) && ss[k].close.swept
       && !ss[k].close.closed
  }

  ghost predicate Slipped(ss: seq<State>, acts: seq<Action>, i: nat, d: Conn)
    requires |ss| == |acts| + 1 && i < |ss|
  {
    exists j: nat, k: nat :: j < k < i && SlippedAt(ss, acts, j, k, d)
  }

  /** A step takes a connection out of the slot. */
  ghost predicate RetiredAt(ss: seq<State>, m: nat, d: Conn)
    requires m + 1 < |ss|
  {
    ss[m].slot == Some(d) && ss[m + 1].slot != Some(d)
  }

  ghost predicate Retired(ss: seq<State>, i: nat, d: Conn)
    requires i < |ss|
  {
    exists m: nat :: m < i && RetiredAt(ss, m, d)
  }

  /** The records of the machine say what happened in the run. */
  lemma SlippedIff(ss: seq<State>, acts: seq<Action>, i: nat, d: Conn)
    requires Run(ss, acts) && i < |ss|
    ensures d in ss[i].close.slipped <==> Slipped(ss, acts, i, d)
  {
    if d in ss[i].close.slipped {
      var j, k := SlippedBetween(ss, acts, i, d);
      assert SlippedAt(ss, acts, j, k, d);
    }
    if j: nat, k: nat :| j < k < i && SlippedAt(ss, acts, j, k, d) {
      InBetweenSlips(ss, acts, j, k, i, d);
    }
  }

  lemma RetiredStep(ss: seq<State>, acts: seq<Action>, k: nat, d: Conn)
    requires Run(ss, acts) && k < |acts|
    ensures d in ss[k + 1].fate.left <==> d in ss[k].fate.left || RetiredAt(ss, k, d)
  {
    RunKeepsInv(ss, acts, k);
    LeavesTheSlot(ss[k], acts[k], ss[k + 1], d);
  }

  lemma {:induction false} RetiredAlong(ss: seq<State>, i: nat, d: Conn)
    requires i < |ss| && d !in ss[0].fate.left
    requires forall k: nat :: k + 1 < |ss| ==>
             (d in ss[k + 1].fate.left <==> d in ss[k].fate.left || RetiredAt(ss, k, d))
    ensures d in ss[i].fate.left <==> Retired(ss, i, d)
    decreases i
  {
    if i > 0 {
      RetiredAlong(ss, i - 1, d);
      assert d in ss[(i - 1) + 1].fate.left <==> d in ss[i - 1].fate.left || RetiredAt(ss, i - 1, d);
    }
  }

  lemma RetiredIff(ss: seq<State>, acts: seq<Action>, i: nat, d: Conn)
    requires Run(ss, acts) && i < |ss|
    ensures d in ss[i].fate.left <==> Retired(ss, i, d)
  {
    forall k: nat | k + 1 < |ss|
      ensures d in ss[k + 1].fate.left <==> d in ss[k].fate.left || RetiredAt(ss, k, d)
    {
      RetiredStep(ss, acts, k, d);
    }
    RetiredAlong(ss, i, d);
  }

  lemma LeavesTheSlotInFlight(s: State, a: Action, s': State, d: Conn)
    requires Exclusive(s) && Shapes(s) && Next(s, a, s')
    requires InFlight(a)
    ensures d in s'.fate.left <==> d in s.fate.left || (s.slot == Some(d) && s'.slot != Some(d))
  {
    assert Shape(At(s.threads, a.t));
  }

  lemma LeavesTheSlotElsewhere(s: State, a: Action, s': State, d: Conn)
    requires Exclusive(s) && Shapes(s) && Next(s, a, s')
    requires !InFlight(a)
    ensures d in s'.fate.left <==> d in s.fate.left || (s.slot == Some(d) && s'.slot != Some(d))
  {
    assert Shape(At(s.threads, a.t));
  }

  lemma LeavesTheSlot(s: State, a: Action, s': State, d: Conn)
    requires Exclusive(s) && Shapes(s) && Next(s, a, s')
    ensures d in s'.fate.left <==> d in s.fate.left || (s.slot == Some(d) && s'.slot != Some(d))
  {
    if InFlight(a) { LeavesTheSlotInFlight(s, a, s', d); } else { LeavesTheSlotElsewhere(s, a, s', d); }
  }

  /** As written, Close leaves a connection in the slot exactly when one slipped through and has
      not been taken out since. */
  lemma SlotAfterClose(ss: seq<State>, acts: seq<Action>, i: nat)
    requires Run(ss, acts) && i < |ss| && ClosedAndChecked(ss[i])
    ensures ss[i].slot.Some? <==> exists d :: Slipped(ss, acts, i, d) && !Retired(ss, i, d)
    ensures ss[i].slot.Some? ==> Slipped(ss, acts, i, ss[i].slot.value)
  {
    RunKeepsInv(ss, acts, i);
    var s := ss[i];
    assert StillChecked(s);
    if s.slot.Some? {
      SlippedIff(ss, acts, i, s.slot.value);
      RetiredIff(ss, acts, i, s.slot.value);
    }
    if d :| Slipped(ss, acts, i, d) && !Retired(ss, i, d) {
      SlippedIff(ss, acts, i, d);
      RetiredIff(ss, acts, i, d);
      assert HandedOut(s, d);
    }
  }

  /** With the two steps of Close swapped the slot always ends empty. */
  lemma SwappedCloseLeavesNothing(ss: seq<State>, acts: seq<Action>, i: nat)
    requires Run(ss, acts) && i < |ss| && ClosedAndChecked(ss[i]) && ss[i].close.order == Swapped
    ensures ss[i].slot.None?
  {
    RunKeepsInv(ss, acts, i);
    SlotAfterClose(ss, acts, i);
    if ss[i].slot.Some? { SlippedIff(ss, acts, i, ss[i].slot.value); }
  }

  /** Whatever is recorded as having slipped through did. */
  lemma {:induction false} SlippedBetween(ss: seq<State>, acts: seq<Action>, i: nat, d: Conn) returns (j: nat, k: nat)
    requires Run(ss, acts) && i < |ss| && d in ss[i].close.slipped
    ensures j < k < i && SlippedAt(ss, acts, j, k, d)
    decreases i
  {
    if d in ss[i - 1].close.slipped {
      j, k := SlippedBetween(ss, acts, i - 1, d);
    } else {
      k := i - 1;
      SlipsAtTheCheck(ss[k], acts[k], ss[k + 1], d);
      j := LateSince(ss, acts, k, d);
      RunKeepsInv(ss, acts, k);
      ClosedIsFinal(ss, acts, j, k);
    }
  }

  /** And whatever slips through is recorded. */
  lemma InBetweenSlips(ss: seq<State>, acts: seq<Action>, j: nat, k: nat, i: nat, d: Conn)
    requires Run(ss, acts) && j < k < i < |ss| && SlippedAt(ss, acts, j, k, d)
    ensures d in ss[i].close.slipped
  {
    LateOncePublished(ss[j], acts[j], ss[j + 1], d);
    RecordsGrow(ss, acts, j + 1, k);
    SlippedOnceChecked(ss[k], acts[k], ss[k + 1], d);
    RecordsGrow(ss, acts, k + 1, i);
  }

  lemma LateOncePublished(s: State, a: Action, s': State, d: Conn)
    requires Next(s, a, s') && a.Publishes? && At(s.threads, a.t).hand == Some(d) && s.close.swept
    ensures d in s'.close.late
  {
  }

  lemma SlippedOnceChecked(s: State, a: Action, s': State, d: Conn)
    requires Next(s, a, s') && a.SecondChecked? && At(s.threads, a.t).pending == Some(d) && !s.close.closed
             && d in s.close.late
    ensures d in s'.close.slipped
  {
  }

  predicate Grows(s: State, s': State) {
    s.close.late <= s'.close.late && s.close.slipped <= s'.close.slipped
  }

  lemma RecordsGrow(ss: seq<State>, acts: seq<Action>, i: nat, j: nat)
    requires Run(ss, acts) && i <= j < |ss|
    ensures Grows(ss[i], ss[j])
  {
    forall k: nat | k + 1 < |ss| ensures Grows(ss[k], ss[k + 1]) {
      RecordsStay(ss[k], acts[k], ss[k + 1]);
    }
    GrowthAdds(ss, i, j);
  }

  lemma {:induction false} GrowthAdds(ss: seq<State>, i: nat, j: nat)
    requires (forall k: nat :: k + 1 < |ss| ==> Grows(ss[k], ss[k + 1])) && i <= j < |ss|
    ensures Grows(ss[i], ss[j])
    decreases j
  {
    if i < j {
      GrowthAdds(ss, i, j - 1);
      assert Grows(ss[j - 1], ss[(j - 1) + 1]);
    }
  }

  lemma RecordsStay(s: State, a: Action, s': State)
    requires Next(s, a, s')
    ensures Grows(s, s')
  {
  }

  lemma SlipsAtTheCheck(s: State, a: Action, s': State, d: Conn)
    requires Next(s, a, s') && d in s'.close.slipped && d !in s.close.slipped
    ensures a.SecondChecked? && At(s.threads, a.t).pending == Some(d) && !s.close.closed && d in s.close.late
  {
  }

  lemma {:induction false} LateSince(ss: seq<State>, acts: seq<Action>, i: nat, d: Conn) returns (j: nat)
    requires Run(ss, acts) && i < |ss| && d in ss[i].close.late
    ensures j < i && acts[j].Publishes? && At(ss[j].threads, acts[j].t).hand == Some(d) && ss[j].close.swept
    decreases i
  {
    if d in ss[i - 1].close.late {
      j := LateSince(ss, acts, i - 1, d);
    } else {
      j := i - 1;
      assert Next(ss[j], acts[j], ss[j + 1]);
      LateByPublishing(ss[j], acts[j], ss[j + 1], d);
    }
  }

  lemma LateByPublishing(s: State, a: Action, s': State, d: Conn)
    requires Next(s, a, s') && d in s'.close.late && d !in s.close.late
    ensures a.Publishes? && At(s.threads, a.t).hand == Some(d) && s.close.swept
  {
  }

  lemma {:induction false} ClosedIsFinal(ss: seq<State>, acts: seq<Action>, i: nat, j: nat)
    requires Run(ss, acts) && i <= j < |ss|
    ensures ss[i].close.closed ==> ss[j].close.closed
    decreases j
  {
    if i < j {
      ClosedIsFinal(ss, acts, i, j - 1);
      if ss[j - 1].close.closed { ClosedStays(ss[j - 1], acts[j - 1], ss[j]); }
    }
  }

  lemma ClosedStays(s: State, a: Action, s': State)
    requires Next(s, a, s') && s.close.closed
    ensures s'.close.closed
  {
  }

  // ---------------------------------------------------------------- the two surprises do happen

  ghost predicate Reachable(s: State) {
    exists ss: seq<State>, acts: seq<Action> :: Run(ss, acts) && ss[|ss| - 1] == s
  }

  lemma ReachStep(s: State, a: Action, s': State)
    requires Reachable(s) && Next(s, a, s')
    ensures Reachable(s')
  {
    var ss: seq<State>, acts: seq<Action> :| Run(ss, acts) && ss[|ss| - 1] == s;
    var ss', acts' := ss + [s'], acts + [a];
    forall i | 0 <= i < |acts'| ensures Next(ss'[i], acts'[i], ss'[i + 1]) {
      if i < |acts| { assert Next(ss[i], acts[i], ss[i + 1]); }
    }
    assert Run(ss', acts') && ss'[|ss'| - 1] == s';
  }

  lemma ReachStart(order: Order) returns (s: State)
    ensures Reachable(s) && Init(s) && s.close.order == order
  {
    s := State(None, Flights(None, 0, map[], {}), Fates(0, {}, {}, {}, {}), Closing(order, None, false, false, {}, {}),
               map[]);
    assert Run([s], []);
    assert [s][|[s]| - 1] == s;
  }

  /** A first lookup, up to the point where it is about to install what it dialed. */
  lemma FirstDial(order: Order, t: Tid) returns (s: State)
    ensures Reachable(s) && s.close.order == order && s.close.closer.None? && !s.close.swept && !s.close.closed
            && s.slot.None? && s.close.late == {}
    ensures s.fate.lost == {} && s.close.slipped == {} && s.fate.left == {} && s.fate.next == 1
    ensures s.dials.dial == Some(DialFlight(0, t)) && s.dials.made == 1
    ensures At(s.threads, t) == IDLE.(pc := Publish, resume := Claim, owns := Some(0), hand := Some(0))
    ensures forall u: Tid :: u != t ==> At(s.threads, u) == IDLE
  {
    var s0 := ReachStart(order);
    var a := BeginLookup(t);
    s := s0.(threads := Set(s0.threads, t, IDLE.(pc := Live)));
    ReachStep(s0, a, s);
    var s1 := s;
    s := s1.(fate := s1.fate.(left := Leaves(s1.fate.left, None)),
             threads := Set(s1.threads, t, IDLE.(pc := Claim, resume := Claim)));
    ReachStep(s1, LiveEnds(t, false), s);
    s := FirstDialClaimed(s, t);
  }

  lemma FirstDialClaimed(s0: State, t: Tid) returns (s: State)
    requires Reachable(s0) && s0.dials.dial.None? && s0.dials.made == 0 && s0.slot.None? && s0.fate.next == 0
             && !s0.close.closed
    requires At(s0.threads, t) == IDLE.(pc := Claim, resume := Claim)
    requires forall u: Tid :: u != t ==> At(s0.threads, u) == IDLE
    ensures Reachable(s)
            && s == s0.(dials := s0.dials.(dial := Some(DialFlight(0, t)), made := 1), fate := s0.fate.(next := 1),
                        threads := s.threads)
    ensures At(s.threads, t) == IDLE.(pc := Publish, resume := Claim, owns := Some(0), hand := Some(0))
    ensures forall u: Tid :: u != t ==> At(s.threads, u) == IDLE
  {
    var th := IDLE.(pc := Dialing, resume := Claim, owns := Some(0));
    var s1 := s0.(dials := s0.dials.(dial := Some(DialFlight(0, t)), made := 1), threads := Set(s0.threads, t, th));
    ReachStep(s0, Claims(t), s1);
    var s2 := s1.(fate := s1.fate.(next := 1), threads := Set(s1.threads, t, th.(pc := FirstCheck, hand := Some(0))));
    ReachStep(s1, DialEnds(t, true), s2);
    s := s2.(threads := Set(s2.threads, t, th.(pc := Publish, hand := Some(0))));
    ReachStep(s2, FirstChecked(t), s);
  }

  /** A connection can slip through: Close invalidates the empty slot, the dialer installs and
      checks, Close sets closed, and the slot stays full with every thread done. */
  lemma CloseCanLeaveAConnection() returns (s: State)
    ensures Reachable(s) && s.close.order == AsWritten && ClosedAndChecked(s) && s.slot == Some(0)
    ensures forall t: Tid :: At(s.threads, t).pc.Start? || At(s.threads, t).pc.Done?
  {
    var s0 := FirstDial(AsWritten, 0);
    var s1 := s0.(close := s0.close.(closer := Some(1)), threads := Set(s0.threads, 1, IDLE.(pc := Sweep)));
    ReachStep(s0, BeginClose(1), s1);
    var s2 := s1.(close := s1.close.(swept := true),
                  threads := Set(s1.threads, 1, IDLE.(pc := ShutSet, resume := ShutSet)));
    ReachStep(s1, Sweeps(1), s2);
    var s3 := SlipThrough(s2);
    s := FinishClose(s3);
  }

  lemma FinishClose(s3: State) returns (s: State)
    requires Reachable(s3) && s3.slot == Some(0) && s3.close.swept && !s3.close.closed && s3.close.order == AsWritten
    requires At(s3.threads, 0).pc.Query? && At(s3.threads, 0).pending.None?
    requires At(s3.threads, 1) == IDLE.(pc := ShutSet, resume := ShutSet)
    requires forall u: Tid :: u != 0 && u != 1 ==> At(s3.threads, u) == IDLE
    ensures Reachable(s) && s.close.order == AsWritten && ClosedAndChecked(s) && s.slot == Some(0)
    ensures forall t: Tid :: At(s.threads, t).pc.Start? || At(s.threads, t).pc.Done?
  {
    var s4 := s3.(close := s3.close.(closed := true),
                  threads := Set(s3.threads, 1, IDLE.(pc := Done, resume := ShutSet)));
    ReachStep(s3, Shuts(1), s4);
    s := s4.(threads := Set(s4.threads, 0, At(s4.threads, 0).(pc := Done, end := Answered)));
    ReachStep(s4, QueryEnds(0), s);
  }

  lemma SlipThrough(s0: State) returns (s: State)
    requires Reachable(s0) && s0.close.swept && !s0.close.closed && s0.slot.None? && s0.close.late == {}
    requires At(s0.threads, 0) == IDLE.(pc := Publish, resume := Claim, owns := Some(0), hand := Some(0))
    ensures Reachable(s) && s.slot == Some(0) && s.close.swept && !s.close.closed && s.close.order == s0.close.order
    ensures At(s.threads, 0).pc.Query? && At(s.threads, 0).pending.None?
    ensures forall u: Tid :: u != 0 ==> At(s.threads, u) == At(s0.threads, u)
  {
    var th := IDLE.(pc := Signal, resume := Claim, signals := Some(0), pending := Some(0));
    var s1 := s0.(slot := Some(0), dials := s0.dials.(dial := None, results := s0.dials.results[0 := Some(0)]),
                  close := s0.close.(late := {0}), threads := Set(s0.threads, 0, th));
    ReachStep(s0, Publishes(0), s1);
    var s2 := s1.(dials := s1.dials.(done := s1.dials.done + {0}),
                  threads := Set(s1.threads, 0, th.(pc := SecondCheck, signals := None)));
    ReachStep(s1, Signals(0), s2);
    s := s2.(close := s2.close.(slipped := s2.close.slipped + {0}),
             threads := Set(s2.threads, 0, th.(pc := Query, signals := None, pending := None, uses := Some(0))));
    ReachStep(s2, SecondChecked(0), s);
  }

  /** A connection can be overwritten without being closed: two lookups find the slot empty, the
      first dials and installs, and the second, which claims only then, dials and installs too. */
  lemma ADialCanOverwrite() returns (s: State)
    ensures Reachable(s) && s.slot == Some(1) && s.fate.lost == {0} && s.fate.shut == {}
  {
    var s0 := ReachStart(AsWritten);
    var live, claim := IDLE.(pc := Live), IDLE.(pc := Claim, resume := Claim);
    var s1 := s0.(threads := Set(s0.threads, 1, live));
    ReachStep(s0, BeginLookup(1), s1);
    var s2 := s1.(threads := Set(s1.threads, 1, claim));
    ReachStep(s1, LiveEnds(1, false), s2);
    var s3 := s2.(threads := Set(s2.threads, 0, live));
    ReachStep(s2, BeginLookup(0), s3);
    var s4 := s3.(threads := Set(s3.threads, 0, claim));
    ReachStep(s3, LiveEnds(0, false), s4);
    var s5 := DialAndInstall(s4, 0);
    s := DialAndInstall(s5, 1);
  }

  /** A thread at the claim, with no dial registered, dials successfully and installs. */
  lemma DialAndInstall(s0: State, t: Tid) returns (s: State)
    requires Reachable(s0) && s0.dials.dial.None? && !s0.close.closed && !s0.close.swept
    requires At(s0.threads, t) == IDLE.(pc := Claim, resume := Claim)
    ensures Reachable(s) && s.dials.dial.None? && !s.close.closed && !s.close.swept && s.fate.next == s0.fate.next + 1
    ensures s.slot == Some(s0.fate.next) && s.fate.lost == Leaves(s0.fate.lost, s0.slot) && s.fate.shut == s0.fate.shut
    ensures forall u: Tid :: u != t ==> At(s.threads, u) == At(s0.threads, u)
  {
    var f, d := s0.dials.made, s0.fate.next;
    var th := IDLE.(pc := Dialing, resume := Claim, owns := Some(f), seen := s0.slot);
    var s1 := s0.(dials := s0.dials.(dial := Some(DialFlight(f, t)), made := f + 1), threads := Set(s0.threads, t, th));
    ReachStep(s0, Claims(t), s1);
    var s2 := s1.(fate := s1.fate.(next := d + 1),
                  threads := Set(s1.threads, t, th.(pc := FirstCheck, hand := Some(d))));
    ReachStep(s1, DialEnds(t, true), s2);
    var s3 := s2.(threads := Set(s2.threads, t, th.(pc := Publish, hand := Some(d))));
    ReachStep(s2, FirstChecked(t), s3);
    s := s3.(slot := Some(d), dials := s3.dials.(dial := None, results := s3.dials.results[f := Some(d)]),
             fate := s3.fate.(lost := Leaves(s3.fate.lost, s3.slot), left := Leaves(s3.fate.left, s3.slot)),
             threads := Set(s3.threads, t, th.(pc := Signal, owns := None, signals := Some(f), pending := Some(d))));
    ReachStep(s3, Publishes(t), s);
  }
}
