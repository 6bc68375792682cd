/** What every interleaving of the machine of DohSlot keeps, step by step. */
module DohInvariant {
  import opened Basics
  import opened DohSlot

  // ---------------------------------------------------------------- invariant

  /** Between registering a dial and publishing its result. */
  predicate Owning(th: Thread) {
    th.pc.Dialing? || th.pc.FirstCheck? || th.pc.Publish? || (th.pc.CloseVictim? && th.resume.Publish?)
  }

  /** The connection in hand is one that nobody else has been offered. */
  predicate Offering(th: Thread) {
    th.hand.Some? && !th.pc.CloseVictim?
  }

  /** Which local variables are in use at each label. */
  predicate Shape(th: Thread) {
    && (th.owns.Some? <==> Owning(th))
    && (th.hand.Some? ==> th.pc.FirstCheck? || th.pc.Publish? || th.pc.CloseVictim?)
    && (th.pc.FirstCheck? || th.pc.CloseVictim? ==> th.hand.Some?)
    && (th.signals.Some? <==> th.pc.Signal?)
    && (th.waits.Some? <==> th.pc.Wait?)
    && (th.pending.Some? ==> th.pc.Signal? || th.pc.SecondCheck? || th.pc.Invalidate?)
    && (th.pc.SecondCheck? ==> th.pending.Some?)
  }

  /** Where a thread resumes. */
  predicate Resumes(th: Thread) {
    && (th.pc.Invalidate? ==> th.resume.Report? || th.resume.Done?)
    && (th.pc.CloseVictim? ==>
          th.resume.Report? || th.resume.Done? || th.resume.Claim? || th.resume.Publish? || th.resume.ShutSet?)
    && (th.pc.Start? ==> th == IDLE)
    && (th.uses.Some? && (th.pc.Invalidate? || th.pc.CloseVictim?) ==> th.resume.Report?)
    && ((th.pc.Invalidate? || th.pc.CloseVictim?) && th.resume.Report? ==> th.uses.Some?)
    && (th.pc.Query? || th.pc.Ask? || th.pc.Report? ==> th.uses.Some?)
    && (th.uses.Some? ==>
          th.pending.None?
          && (th.pc.Query? || th.pc.Ask? || th.pc.Report? || th.pc.Invalidate? || th.pc.CloseVictim? || th.pc.Done?))
  }

  ghost predicate Shapes(s: State) {
    forall t: Tid :: Shape(At(s.threads, t))
  }

  ghost predicate Resuming(s: State) {
    forall t: Tid :: Resumes(At(s.threads, t))
  }

  /** Exactly the owner of the registered dial is between registering and publishing. */
  ghost predicate Coalesced(s: State) {
    && (forall t: Tid :: At(s.threads, t).owns.Some? ==>
        s.dials.dial == Some(DialFlight(At(s.threads, t).owns.value, t)))
    && (s.dials.dial.Some? ==> At(s.threads, s.dials.dial.value.owner).owns == Some(s.dials.dial.value.id))
    && (s.dials.dial.Some? ==> s.dials.dial.value.id < s.dials.made && s.dials.dial.value.id !in s.dials.results)
  }

  /** Flights are published once, then signalled once. */
  ghost predicate Published(s: State) {
    && (forall f :: f in s.dials.results ==> f < s.dials.made)
    && (forall f :: f in s.dials.done ==> f in s.dials.results)
    && (forall t: Tid :: At(s.threads, t).signals.Some? ==>
          (var f := At(s.threads, t).signals.value;
           f in s.dials.results && f !in s.dials.done && s.dials.results[f] == At(s.threads, t).pending))
    && (forall t: Tid, u: Tid ::
          At(s.threads, t).signals.Some? && At(s.threads, t).signals == At(s.threads, u).signals ==> t == u)
    && (forall t: Tid :: At(s.threads, t).waits.Some? ==> At(s.threads, t).waits.value < s.dials.made)
  }

  /** A flight that is not done has a thread at work on it. */
  ghost predicate BeingWorked(s: State, f: Flight) {
    || (s.dials.dial.Some? && s.dials.dial.value.id == f)
    || f in s.dials.done
    || exists t: Tid :: At(s.threads, t).signals == Some(f)
  }

  ghost predicate Worked(s: State) {
    forall f: Flight :: f < s.dials.made ==> BeingWorked(s, f)
  }

  /** No connection is in two places, and one that has left the slot is not in it. */
  ghost predicate Exclusive(s: State) {
    && (s.slot.Some? ==> s.slot.value < s.fate.next && s.slot.value !in s.fate.shut && s.slot.value !in s.fate.left)
    && (forall t: Tid :: At(s.threads, t).hand.Some? ==>
          (var d := At(s.threads, t).hand.value;
           d < s.fate.next && d !in s.fate.shut && d !in s.fate.lost && s.slot != Some(d)
           && (Offering(At(s.threads, t)) ==> d !in s.fate.left)))
    && (forall t: Tid, u: Tid :: At(s.threads, t).hand.Some? && At(s.threads, t).hand == At(s.threads, u).hand ==>
        t == u)
    && (forall d :: d in s.fate.shut ==> d < s.fate.next && d !in s.fate.lost)
    && (forall d :: d in s.fate.lost ==> d in s.fate.left)
    && (forall d :: d in s.fate.left ==> d < s.fate.next)
  }

  ghost predicate Somewhere(s: State, d: Conn) {
    s.slot == Some(d) || d in s.fate.shut || d in s.fate.lost || exists t: Tid :: At(s.threads, t).hand == Some(d)
  }

  ghost predicate Accounted(s: State) {
    forall d: Conn :: d < s.fate.next ==> Somewhere(s, d)
  }

  /** A connection that has been in the slot. */
  predicate HandedOut(s: State, d: Conn) {
    s.slot == Some(d) || d in s.fate.left
  }

  /** A query goroutine that has invalidated the connection it used. */
  predicate GivenUp(th: Thread) {
    th.uses.Some? && (th.pc.Report? || th.pc.CloseVictim?)
  }

  /** What lookups and query goroutines know about the connections they use. */
  ghost predicate Known(s: State) {
    && (forall t: Tid :: At(s.threads, t).uses.Some? ==>
          HandedOut(s, At(s.threads, t).uses.value) && At(s.threads, t).uses != At(s.threads, t).failed)
    && (forall t: Tid :: At(s.threads, t).pending.Some? ==>
          HandedOut(s, At(s.threads, t).pending.value) && At(s.threads, t).pending != At(s.threads, t).failed)
    && (forall t: Tid :: At(s.threads, t).failed.Some? ==> At(s.threads, t).failed.value in s.fate.left)
    && (forall t: Tid :: GivenUp(At(s.threads, t)) ==> At(s.threads, t).uses.value in s.fate.left)
    && (forall d :: d in s.fate.reported ==> d in s.fate.left)
  }

  /** While a dial is in progress nobody else fills the slot. */
  ghost predicate SlotAsSeen(s: State) {
    forall t: Tid :: At(s.threads, t).owns.Some? ==> s.slot.None? || s.slot == At(s.threads, t).seen
  }

  predicate AboutToShut(th: Thread) {
    th.pc.ShutSet? || (th.pc.CloseVictim? && th.resume.ShutSet?)
  }

  /** The progress of the one run of Close. */
  ghost predicate CloseInv(s: State) {
    && (forall t: Tid :: At(s.threads, t).pc.Sweep? ==>
          s.close.closer == Some(t) && !s.close.swept && (s.close.order == Swapped ==> s.close.closed))
    && (forall t: Tid :: AboutToShut(At(s.threads, t)) ==>
          s.close.closer == Some(t) && !s.close.closed && (s.close.order == AsWritten ==> s.close.swept))
    && (s.close.order == AsWritten && s.close.closed ==> s.close.swept)
    && (s.close.order == Swapped && s.close.swept ==> s.close.closed)
    && (s.close.swept || s.close.closed ==> s.close.closer.Some?)
  }

  /** After Close's invalidation the slot holds only late connections, and one whose second
      check is over is there only if it slipped through. */
  ghost predicate LateInv(s: State) {
    && (s.close.swept && s.slot.Some? ==> s.slot.value in s.close.late)
    && (s.close.late != {} ==> s.close.swept)
    && s.close.slipped <= s.close.late
    && (s.close.order == Swapped ==> s.close.slipped == {})
    && (forall d :: d in s.close.late ==> HandedOut(s, d))
  }

  ghost predicate StillChecked(s: State) {
    s.slot.Some? && s.slot.value in s.close.late && s.slot.value !in s.close.slipped
    ==> exists t: Tid :: At(s.threads, t).pending == s.slot
  }

  // ---------------------------------------------------------------- preservation

  ghost predicate Flow(s: State) {
    Shapes(s) && Resuming(s) && Coalesced(s) && Published(s) && Worked(s) && CloseInv(s)
  }

  ghost predicate Conns(s: State) {
    Exclusive(s) && Accounted(s) && Known(s) && SlotAsSeen(s) && LateInv(s) && StillChecked(s)
  }

  ghost predicate Inv(s: State) {
    Flow(s) && Conns(s)
  }

  lemma InitKeeps(s: State)
    requires Init(s)
    ensures Inv(s)
  {
  }

  /** A step moves one thread. */
  ghost predicate OthersSame(s: State, s': State, t: Tid) {
    forall u: Tid {:trigger At(s'.threads, u)} :: u != t ==> At(s'.threads, u) == At(s.threads, u)
  }

  /** The steps between claiming a flight and using its connection. */
  predicate InFlight(a: Action) {
    a.Claims? || a.Wakes? || a.GivesUp? || a.DialEnds? || a.FirstChecked? || a.Publishes? || a.Signals?
        || a.SecondChecked?
  }

  lemma OthersStayInFlight(s: State, a: Action, s': State)
    requires Next(s, a, s') && InFlight(a)
    ensures OthersSame(s, s', a.t)
  {
  }

  lemma OthersStayElsewhere(s: State, a: Action, s': State)
    requires Next(s, a, s') && !InFlight(a)
    ensures OthersSame(s, s', a.t)
  {
  }

  lemma OthersStay(s: State, a: Action, s': State)
    requires Next(s, a, s')
    ensures OthersSame(s, s', a.t)
  {
    if InFlight(a) { OthersStayInFlight(s, a, s'); } else { OthersStayElsewhere(s, a, s'); }
  }

  predicate Beginning(a: Action) {
    a.BeginLookup? || a.BeginAsk? || a.BeginDrop? || a.BeginClose?
  }

  /** The steps of a lookup that finds the slot full, joins a dial or claims one. */
  predicate Looking(a: Action) {
    a.LiveEnds? || a.Claims? || a.Wakes? || a.GivesUp?
  }

  /** The steps of the owner of a dial. */
  predicate OwnersStep(a: Action) {
    a.DialEnds? || a.FirstChecked? || a.Publishes?
  }

  lemma OwnLocalsBeginning(s: State, a: Action, s': State)
    requires Next(s, a, s') && Shape(At(s.threads, a.t)) && Resumes(At(s.threads, a.t)) && Beginning(a)
    requires a.BeginAsk? ==> Resumes(At(s.threads, a.lookup))
    ensures Shape(At(s'.threads, a.t)) && Resumes(At(s'.threads, a.t))
  {
  }

  lemma OwnLocalsLooking(s: State, a: Action, s': State)
    requires Next(s, a, s') && Shape(At(s.threads, a.t)) && Resumes(At(s.threads, a.t)) && Looking(a)
    ensures Shape(At(s'.threads, a.t)) && Resumes(At(s'.threads, a.t))
  {
  }

  lemma OwnLocalsOwner(s: State, a: Action, s': State)
    requires Next(s, a, s') && Shape(At(s.threads, a.t)) && Resumes(At(s.threads, a.t)) && OwnersStep(a)
    ensures Shape(At(s'.threads, a.t)) && Resumes(At(s'.threads, a.t))
  {
  }

  lemma OwnLocalsAfter(s: State, a: Action, s': State)
    requires Next(s, a, s') && Shape(At(s.threads, a.t)) && Resumes(At(s.threads, a.t))
    requires !Beginning(a) && !Looking(a) && !OwnersStep(a)
    ensures Shape(At(s'.threads, a.t)) && Resumes(At(s'.threads, a.t))
  {
  }

  lemma LocalsKept(s: State, a: Action, s': State)
    requires Shapes(s) && Resuming(s) && Next(s, a, s')
    ensures Shapes(s') && Resuming(s')
  {
    OthersStay(s, a, s');
    if Beginning(a) { OwnLocalsBeginning(s, a, s'); }
    else if Looking(a) { OwnLocalsLooking(s, a, s'); }
    else if OwnersStep(a) { OwnLocalsOwner(s, a, s'); }
    else { OwnLocalsAfter(s, a, s'); }
    LocalsFrame(s, s', a.t);
  }

  lemma LocalsFrame(s: State, s': State, t: Tid)
    requires Shapes(s) && Resuming(s) && OthersSame(s, s', t)
    requires Shape(At(s'.threads, t)) && Resumes(At(s'.threads, t))
    ensures Shapes(s') && Resuming(s')
  {
  }

  // Flights: only Claims, Publishes and Signals touch them.

  predicate SameFlights(th: Thread, th': Thread) {
    && th'.owns == th.owns && th'.signals == th.signals
    && (th'.signals.Some? ==> th'.pending == th.pending)
    && (th'.waits.Some? ==> th'.waits == th.waits)
  }

  lemma FlightsUntouchedInFlight(s: State, a: Action, s': State)
    requires Shape(At(s.threads, a.t)) && Next(s, a, s') && !a.Claims? && !a.Publishes? && !a.Signals?
    requires InFlight(a)
    ensures s'.dials == s.dials
    ensures SameFlights(At(s.threads, a.t), At(s'.threads, a.t))
  {
  }

  lemma FlightsUntouchedElsewhere(s: State, a: Action, s': State)
    requires Shape(At(s.threads, a.t)) && Next(s, a, s') && !a.Claims? && !a.Publishes? && !a.Signals?
    requires !InFlight(a)
    ensures s'.dials == s.dials
    ensures SameFlights(At(s.threads, a.t), At(s'.threads, a.t))
  {
  }

  lemma FlightsUntouched(s: State, a: Action, s': State)
    requires Shape(At(s.threads, a.t)) && Next(s, a, s') && !a.Claims? && !a.Publishes? && !a.Signals?
    ensures s'.dials == s.dials
    ensures SameFlights(At(s.threads, a.t), At(s'.threads, a.t))
  {
    if InFlight(a) { FlightsUntouchedInFlight(s, a, s'); } else { FlightsUntouchedElsewhere(s, a, s'); }
  }

  lemma FlightsKept(s: State, s': State, t: Tid)
    requires Coalesced(s) && Published(s) && Worked(s)
    requires s'.dials == s.dials
    requires OthersSame(s, s', t) && SameFlights(At(s.threads, t), At(s'.threads, t))
    ensures Coalesced(s') && Published(s') && Worked(s')
  {
    forall f: Flight | f < s'.dials.made ensures BeingWorked(s', f) {
      assert BeingWorked(s, f);
      if u: Tid :| At(s.threads, u).signals == Some(f) { assert At(s'.threads, u).signals == Some(f); }
    }
  }

  lemma FlightsAfterClaim(s: State, a: Action, s': State)
    requires Flow(s) && Next(s, a, s') && a.Claims?
    ensures Coalesced(s') && Published(s')
  {
  }

  lemma FlightsAfterPublish(s: State, a: Action, s': State)
    requires Flow(s) && Next(s, a, s') && a.Publishes?
    ensures Coalesced(s') && Published(s')
  {
  }

  lemma FlightsAfterSignal(s: State, a: Action, s': State)
    requires Flow(s) && Next(s, a, s') && a.Signals?
    ensures Coalesced(s') && Published(s')
  {
  }

  lemma WorkedAfter(s: State, a: Action, s': State)
    requires Flow(s) && Next(s, a, s') && (a.Claims? || a.Publishes? || a.Signals?)
    ensures Worked(s')
  {
    OthersStay(s, a, s');
    forall f: Flight | f < s'.dials.made ensures BeingWorked(s', f) {
      if f < s.dials.made {
        assert BeingWorked(s, f);
        if t: Tid :| At(s.threads, t).signals == Some(f) {
          if t != a.t { assert At(s'.threads, t).signals == Some(f); }
        } else if f !in s.dials.done && a.Publishes? {
          assert At(s'.threads, a.t).signals == Some(f);
        }
      }
    }
  }

  // Close: only its own thread matters.

  lemma CloseKept(s: State, a: Action, s': State)
    requires Shape(At(s.threads, a.t)) && Resumes(At(s.threads, a.t)) && CloseInv(s)
    requires Next(s, a, s') && !a.Closes? && !a.Sweeps? && !a.Shuts?
    ensures CloseInv(s')
  {
    OthersStay(s, a, s');
    if a.BeginClose? { CloseBegins(s, a, s'); } else { OwnClose(s, a, s'); }
    CloseFrame(s, s', a.t);
  }

  predicate AtClose(th: Thread) {
    th.pc.Sweep? || th.pc.ShutSet? || (th.pc.CloseVictim? && th.resume.ShutSet?)
  }

  lemma CloseFrame(s: State, s': State, t: Tid)
    requires CloseInv(s) && OthersSame(s, s', t)
    requires s'.close.swept == s.close.swept && s'.close.closed == s.close.closed && s'.close.order == s.close.order
    requires s'.close.closer == s.close.closer || (s.close.closer.None? && s'.close.closer == Some(t))
    requires AtClose(At(s'.threads, t)) ==> s.close.closer.None? && s'.close.closer.Some?
    requires At(s'.threads, t).pc.Sweep? ==> s.close.order == AsWritten
    requires At(s'.threads, t).pc.ShutSet? ==> s.close.order == Swapped
    requires !(At(s'.threads, t).pc.CloseVictim? && At(s'.threads, t).resume.ShutSet?)
    ensures CloseInv(s')
  {
  }

  /** Close is begun once, at the label its order starts with. */
  lemma CloseBegins(s: State, a: Action, s': State)
    requires Next(s, a, s') && a.BeginClose?
    ensures s'.close.swept == s.close.swept && s'.close.closed == s.close.closed && s'.close.order == s.close.order
    ensures s.close.closer.None? && s'.close.closer == Some(a.t)
    ensures At(s'.threads, a.t).pc == if s.close.order == AsWritten then Sweep else ShutSet
  {
  }

  /** Outside Close's own steps no thread comes to a label of Close. */
  lemma OwnCloseInFlight(s: State, a: Action, s': State)
    requires Shape(At(s.threads, a.t)) && Resumes(At(s.threads, a.t))
    requires Next(s, a, s') && !a.BeginClose? && !a.Closes? && !a.Sweeps? && !a.Shuts?
    requires InFlight(a)
    ensures s'.close.swept == s.close.swept && s'.close.closed == s.close.closed && s'.close.order == s.close.order
            && s'.close.closer == s.close.closer
    ensures !AtClose(At(s'.threads, a.t))
  {
  }

  lemma OwnCloseElsewhere(s: State, a: Action, s': State)
    requires Shape(At(s.threads, a.t)) && Resumes(At(s.threads, a.t))
    requires Next(s, a, s') && !a.BeginClose? && !a.Closes? && !a.Sweeps? && !a.Shuts?
    requires !InFlight(a)
    ensures s'.close.swept == s.close.swept && s'.close.closed == s.close.closed && s'.close.order == s.close.order
            && s'.close.closer == s.close.closer
    ensures !AtClose(At(s'.threads, a.t))
  {
  }

  lemma OwnClose(s: State, a: Action, s': State)
    requires Shape(At(s.threads, a.t)) && Resumes(At(s.threads, a.t))
    requires Next(s, a, s') && !a.BeginClose? && !a.Closes? && !a.Sweeps? && !a.Shuts?
    ensures s'.close.swept == s.close.swept && s'.close.closed == s.close.closed && s'.close.order == s.close.order
            && s'.close.closer == s.close.closer
    ensures !AtClose(At(s'.threads, a.t))
  {
    if InFlight(a) { OwnCloseInFlight(s, a, s'); } else { OwnCloseElsewhere(s, a, s'); }
  }

  lemma CloseAdvances(s: State, a: Action, s': State)
    requires Shape(At(s.threads, a.t)) && Resumes(At(s.threads, a.t)) && CloseInv(s) && Next(s, a, s')
             && (a.Closes? || a.Sweeps? || a.Shuts?)
    ensures CloseInv(s')
  {
    OthersStay(s, a, s');
  }

  lemma FlowKept(s: State, a: Action, s': State)
    requires Flow(s) && Next(s, a, s')
    ensures Flow(s')
  {
    LocalsKept(s, a, s');
    if a.Claims? || a.Publishes? || a.Signals? {
      if a.Claims? { FlightsAfterClaim(s, a, s'); }
      if a.Publishes? { FlightsAfterPublish(s, a, s'); }
      if a.Signals? { FlightsAfterSignal(s, a, s'); }
      WorkedAfter(s, a, s');
    } else {
      OthersStay(s, a, s');
      FlightsUntouched(s, a, s');
      FlightsKept(s, s', a.t);
    }
    if a.Closes? || a.Sweeps? || a.Shuts? { CloseAdvances(s, a, s'); } else { CloseKept(s, a, s'); }
  }

  // Connections in hand and in the slot.

  predicate MovesConn(a: Action) {
    a.LiveEnds? || a.DialEnds? || a.FirstChecked? || a.Publishes? || a.Invalidates? || a.Closes? || a.Sweeps?
  }

  predicate SameHand(th: Thread, th': Thread) {
    th'.hand == th.hand && (th'.hand.Some? ==> th'.pc == th.pc)
  }

  lemma HandsUntouched(s: State, a: Action, s': State)
    requires Shape(At(s.threads, a.t)) && Next(s, a, s') && !MovesConn(a)
    ensures s'.slot == s.slot && s'.fate.next == s.fate.next && s'.fate.shut == s.fate.shut
            && s'.fate.lost == s.fate.lost && s'.fate.left == s.fate.left
    ensures SameHand(At(s.threads, a.t), At(s'.threads, a.t))
  {
  }

  lemma HandsKept(s: State, s': State, t: Tid)
    requires Exclusive(s) && Accounted(s)
    requires s'.slot == s.slot && s'.fate.next == s.fate.next && s'.fate.shut == s.fate.shut
             && s'.fate.lost == s.fate.lost && s'.fate.left == s.fate.left
    requires OthersSame(s, s', t) && SameHand(At(s.threads, t), At(s'.threads, t))
    ensures Exclusive(s') && Accounted(s')
  {
    forall d: Conn | d < s'.fate.next ensures Somewhere(s', d) {
      assert Somewhere(s, d);
      if u: Tid :| At(s.threads, u).hand == Some(d) { assert At(s'.threads, u).hand == Some(d); }
    }
  }

  lemma ExclusiveAfterTaking(s: State, a: Action, s': State)
    requires Shapes(s) && Exclusive(s) && Next(s, a, s') && (a.LiveEnds? || a.Invalidates? || a.Sweeps?)
    ensures Exclusive(s')
  {
    OthersStay(s, a, s');
  }

  lemma ExclusiveAfterDial(s: State, a: Action, s': State)
    requires Shapes(s) && Exclusive(s) && Next(s, a, s') && a.DialEnds?
    ensures Exclusive(s')
  {
    OthersStay(s, a, s');
  }

  lemma ExclusiveAfterCheck(s: State, a: Action, s': State)
    requires Shapes(s) && Exclusive(s) && Next(s, a, s') && a.FirstChecked?
    ensures Exclusive(s')
  {
    OthersStay(s, a, s');
  }

  lemma ExclusiveAfterPublish(s: State, a: Action, s': State)
    requires Shapes(s) && Exclusive(s) && Next(s, a, s') && (a.Publishes? || a.Closes?)
    ensures Exclusive(s')
  {
    OthersStay(s, a, s');
  }

  lemma AccountedAfter(s: State, a: Action, s': State)
    requires Shapes(s) && Exclusive(s) && Accounted(s) && Next(s, a, s') && MovesConn(a)
    ensures Accounted(s')
  {
    forall d: Conn | d < s'.fate.next ensures Somewhere(s', d) {
      if d < s.fate.next { ConnStays(s, a, s', d); } else { assert At(s'.threads, a.t).hand == Some(d); }
    }
  }

  /** A connection moves only from one accounted place to another. */
  /** Where a step that moves connections leaves each of them. */
  lemma HandStays(s: State, a: Action, s': State, d: Conn)
    requires Shape(At(s.threads, a.t)) && Next(s, a, s') && MovesConn(a) && At(s.threads, a.t).hand == Some(d)
    ensures At(s'.threads, a.t).hand == Some(d) || s'.slot == Some(d) || d in s'.fate.shut
  {
  }

  lemma SlotStays(s: State, a: Action, s': State, d: Conn)
    requires Shape(At(s.threads, a.t)) && Next(s, a, s') && MovesConn(a) && s.slot == Some(d) && s'.slot != Some(d)
    ensures d in s'.fate.lost || At(s'.threads, a.t).hand == Some(d)
  {
  }

  lemma FatesGrow(s: State, a: Action, s': State)
    requires Next(s, a, s') && MovesConn(a)
    ensures s.fate.shut <= s'.fate.shut && s.fate.lost <= s'.fate.lost
  {
  }

  lemma ConnStays(s: State, a: Action, s': State, d: Conn)
    requires Shapes(s) && Accounted(s) && Next(s, a, s') && MovesConn(a) && d < s.fate.next
    ensures Somewhere(s', d)
  {
    OthersStay(s, a, s');
    FatesGrow(s, a, s');
    assert Somewhere(s, d) && Shape(At(s.threads, a.t));
    if t: Tid :| At(s.threads, t).hand == Some(d) {
      if t == a.t { HandStays(s, a, s', d); } else { assert At(s'.threads, t).hand == Some(d); }
    } else if s.slot == Some(d) && s'.slot != Some(d) {
      SlotStays(s, a, s', d);
    }
  }

  // What threads know about the connections they use.

  predicate TeachesConn(a: Action) {
    a.BeginAsk? || a.LiveEnds? || a.Publishes? || a.SecondChecked? || a.QueryRetries? || a.Invalidates? || a.Sweeps?
    || a.Reports? || a.Closes?
  }

  predicate SameUses(th: Thread, th': Thread) {
    && th'.failed == th.failed && th'.pending == th.pending && th'.uses == th.uses
    && (th'.uses.Some? && (th'.pc.Report? || th'.pc.CloseVictim?) ==> th'.pc == th.pc)
  }

  lemma UsesUntouchedInFlight(s: State, a: Action, s': State)
    requires Shape(At(s.threads, a.t)) && Resumes(At(s.threads, a.t)) && Next(s, a, s') && !TeachesConn(a)
    requires InFlight(a)
    ensures s'.slot == s.slot && s'.fate.left == s.fate.left && s'.fate.reported == s.fate.reported
    ensures SameUses(At(s.threads, a.t), At(s'.threads, a.t))
  {
  }

  lemma UsesUntouchedElsewhere(s: State, a: Action, s': State)
    requires Shape(At(s.threads, a.t)) && Resumes(At(s.threads, a.t)) && Next(s, a, s') && !TeachesConn(a)
    requires !InFlight(a)
    ensures s'.slot == s.slot && s'.fate.left == s.fate.left && s'.fate.reported == s.fate.reported
    ensures SameUses(At(s.threads, a.t), At(s'.threads, a.t))
  {
  }

  lemma UsesUntouched(s: State, a: Action, s': State)
    requires Shape(At(s.threads, a.t)) && Resumes(At(s.threads, a.t)) && Next(s, a, s') && !TeachesConn(a)
    ensures s'.slot == s.slot && s'.fate.left == s.fate.left && s'.fate.reported == s.fate.reported
    ensures SameUses(At(s.threads, a.t), At(s'.threads, a.t))
  {
    if InFlight(a) { UsesUntouchedInFlight(s, a, s'); } else { UsesUntouchedElsewhere(s, a, s'); }
  }

  lemma UsesKept(s: State, s': State, t: Tid)
    requires Known(s) && s'.slot == s.slot && s'.fate.left == s.fate.left && s'.fate.reported == s.fate.reported
    requires OthersSame(s, s', t) && SameUses(At(s.threads, t), At(s'.threads, t))
    ensures Known(s')
  {
  }

  lemma KnownAfterTaking(s: State, a: Action, s': State)
    requires Shapes(s) && Resuming(s) && Exclusive(s) && Known(s) && Next(s, a, s') && (a.LiveEnds? || a.Sweeps?)
    ensures Known(s')
  {
    OthersStay(s, a, s');
  }

  lemma KnownAfterInvalidate(s: State, a: Action, s': State)
    requires Shapes(s) && Resuming(s) && Exclusive(s) && Known(s) && Next(s, a, s') && a.Invalidates?
    ensures Known(s')
  {
    OthersStay(s, a, s');
  }

  lemma KnownAfterPublish(s: State, a: Action, s': State)
    requires Shapes(s) && Exclusive(s) && Known(s) && Resuming(s) && Next(s, a, s') && a.Publishes?
    ensures Known(s')
  {
    OthersStay(s, a, s');
  }

  lemma KnownAfterOthers(s: State, a: Action, s': State)
    requires Shapes(s) && Resuming(s) && Known(s) && Next(s, a, s')
    requires a.BeginAsk? || a.SecondChecked? || a.QueryRetries? || a.Reports? || a.Closes?
    ensures Known(s')
  {
    OthersStay(s, a, s');
  }

  lemma SlotAsSeenKept(s: State, a: Action, s': State)
    requires Shapes(s) && Coalesced(s) && SlotAsSeen(s) && Next(s, a, s')
    ensures SlotAsSeen(s')
  {
    OthersStay(s, a, s');
  }

  lemma LateAfterTaking(s: State, a: Action, s': State)
    requires LateInv(s) && Next(s, a, s') && (a.LiveEnds? || a.Invalidates? || a.Sweeps?)
    ensures LateInv(s')
  {
  }

  lemma LateAfterInstalling(s: State, a: Action, s': State)
    requires CloseInv(s) && LateInv(s) && Next(s, a, s') && (a.Publishes? || a.SecondChecked?)
    ensures LateInv(s')
  {
  }

  lemma LateUntouched(s: State, a: Action, s': State)
    requires LateInv(s) && Next(s, a, s') && !a.LiveEnds? && !a.Invalidates? && !a.Sweeps? && !a.Publishes?
             && !a.SecondChecked?
    ensures LateInv(s')
  {
  }

  lemma LateKept(s: State, a: Action, s': State)
    requires CloseInv(s) && LateInv(s) && Next(s, a, s')
    ensures LateInv(s')
  {
    if a.LiveEnds? || a.Invalidates? || a.Sweeps? { LateAfterTaking(s, a, s'); }
    else if a.Publishes? || a.SecondChecked? { LateAfterInstalling(s, a, s'); }
    else { LateUntouched(s, a, s'); }
  }

  /** A late connection in the slot keeps the thread that still has to check it. */
  lemma StillCheckedKept(s: State, a: Action, s': State)
    requires Shapes(s) && Exclusive(s) && StillChecked(s) && Next(s, a, s')
    ensures StillChecked(s')
  {
    if s'.slot.Some? && s'.slot.value in s'.close.late && s'.slot.value !in s'.close.slipped {
      if a.Publishes? && At(s.threads, a.t).hand.Some? {
        assert At(s'.threads, a.t).pending == s'.slot;
      } else {
        SlotOnlyEmpties(s, a, s');
        var t: Tid :| At(s.threads, t).pending == s.slot;
        OthersStay(s, a, s');
        if t == a.t { CheckStays(s, a, s'); }
        assert At(s'.threads, t).pending == s'.slot;
      }
    }
  }

  /** Only publishing a dialed connection fills the slot or makes a connection late. */
  lemma SlotOnlyEmpties(s: State, a: Action, s': State)
    requires Next(s, a, s') && s'.slot.Some? && !(a.Publishes? && At(s.threads, a.t).hand.Some?)
    ensures s'.slot == s.slot && s'.close.late == s.close.late && s.close.slipped <= s'.close.slipped
  {
  }

  /** A thread drops its pending check only by making it, and then the connection has slipped
      through if it is late, or by taking the connection out of the slot. */
  lemma CheckStaysInFlight(s: State, a: Action, s': State)
    requires Next(s, a, s') && Shape(At(s.threads, a.t)) && s.slot.Some? && At(s.threads, a.t).pending == s.slot
    requires InFlight(a)
    ensures At(s'.threads, a.t).pending == s.slot || (s.slot.value in s.close.late ==> s.slot.value in s'.close.slipped)
  {
  }

  lemma CheckStaysElsewhere(s: State, a: Action, s': State)
    requires Next(s, a, s') && Shape(At(s.threads, a.t)) && s.slot.Some? && At(s.threads, a.t).pending == s.slot
    requires !InFlight(a)
    ensures s'.slot.None?
  {
  }

  lemma CheckStays(s: State, a: Action, s': State)
    requires Next(s, a, s') && Shape(At(s.threads, a.t)) && s.slot.Some? && At(s.threads, a.t).pending == s.slot
    ensures At(s'.threads, a.t).pending == s.slot || s'.slot.None?
            || (s.slot.value in s.close.late ==> s.slot.value in s'.close.slipped)
  {
    if InFlight(a) { CheckStaysInFlight(s, a, s'); } else { CheckStaysElsewhere(s, a, s'); }
  }

  lemma HandsStep(s: State, a: Action, s': State)
    requires Shapes(s) && Exclusive(s) && Accounted(s) && Next(s, a, s')
    ensures Exclusive(s') && Accounted(s')
  {
    if MovesConn(a) {
      if a.LiveEnds? || a.Invalidates? || a.Sweeps? { ExclusiveAfterTaking(s, a, s'); }
      else if a.DialEnds? { ExclusiveAfterDial(s, a, s'); }
      else if a.FirstChecked? { ExclusiveAfterCheck(s, a, s'); }
      else { ExclusiveAfterPublish(s, a, s'); }
      AccountedAfter(s, a, s');
    } else {
      OthersStay(s, a, s');
      HandsUntouched(s, a, s');
      HandsKept(s, s', a.t);
    }
  }

  lemma KnownStep(s: State, a: Action, s': State)
    requires Shapes(s) && Resuming(s) && Exclusive(s) && Known(s) && Next(s, a, s')
    ensures Known(s')
  {
    if TeachesConn(a) {
      if a.LiveEnds? || a.Sweeps? { KnownAfterTaking(s, a, s'); }
      else if a.Invalidates? { KnownAfterInvalidate(s, a, s'); }
      else if a.Publishes? { KnownAfterPublish(s, a, s'); }
      else { KnownAfterOthers(s, a, s'); }
    } else {
      OthersStay(s, a, s');
      UsesUntouched(s, a, s');
      UsesKept(s, s', a.t);
    }
  }

  lemma ConnsKept(s: State, a: Action, s': State)
    requires Inv(s) && Next(s, a, s')
    ensures Conns(s')
  {
    HandsStep(s, a, s');
    KnownStep(s, a, s');
    SlotAsSeenKept(s, a, s');
    LateKept(s, a, s');
    StillCheckedKept(s, a, s');
  }

  lemma InvKept(s: State, a: Action, s': State)
    requires Inv(s) && Next(s, a, s')
    ensures Inv(s')
  {
    FlowKept(s, a, s');
    ConnsKept(s, a, s');
  }
}
