/** The shared DNS-over-HTTPS connection (tunnel/masque.go dohConnection, liveDoH, invalidateDoH,
    the retry of resolveDNS, and Close): lookups, query goroutines, reconnects and Close share
    one slot under dohMu. Each section of dohMu or of connMu is one step; dialing, closing a
    connection and asking a question happen outside the locks and end in any way. */
module DohSlot {
  import opened Basics

  type Tid = nat
  type Conn = nat
  type Flight = nat

  // ---------------------------------------------------------------- the guarded fields

  /** A dial in progress, with the thread that owns it. */
  datatype DialFlight = DialFlight(id: Flight, owner: Tid)

  /** The sections of dohMu as they act on the slot; what a section takes out must be closed. */
  datatype Taken = Taken(slot: Option<Conn>, victim: Option<Conn>)

  function LiveSection(slot: Option<Conn>, dead: bool): Taken {
    if slot.Some? && dead then Taken(None, slot) else Taken(slot, None)
  }

  function InvalidateSection(slot: Option<Conn>, stale: Option<Conn>): Taken {
    if slot.None? || (stale.Some? && slot != stale) then Taken(slot, None) else Taken(None, slot)
  }

  class Fields {
    var doh: Option<Conn>
    var dohDial: Option<DialFlight>
    var made: nat

    constructor ()
      ensures doh == None && dohDial == None && made == 0
    {
      doh, dohDial, made := None, None, 0;
    }

    /** liveDoH, given whether the connection it finds has closed: a usable one stays and is handed
        out, a dead one is taken out to be closed. */
    method LiveDoH(dead: bool) returns (live: Option<Conn>, victim: Option<Conn>)
      modifies this`doh
      ensures live.Some? <==> old(doh).Some? && !dead
      ensures live.Some? ==> live == doh == old(doh)
      ensures victim.Some? <==> old(doh).Some? && dead
      ensures victim.Some? ==> victim == old(doh) && doh == None
      ensures Taken(doh, victim) == LiveSection(old(doh), dead)
      ensures live == if victim.None? then doh else None
    {
      var d := doh;
      if d.None? { return None, None; }
      if !dead { return d, None; }
      doh := None;
      return None, d;
    }

    /** Takes the connection out if it is the one named, or if none is. */
    method InvalidateDoH(stale: Option<Conn>) returns (victim: Option<Conn>)
      modifies this`doh
      ensures victim.Some? <==> old(doh).Some? && (stale.None? || stale == old(doh))
      ensures victim.Some? ==> victim == old(doh) && doh == None
      ensures victim.None? ==> doh == old(doh)
      ensures Taken(doh, victim) == InvalidateSection(old(doh), stale)
    {
      victim := doh;
      if victim.None? || (stale.Some? && victim != stale) { return None; }
      doh := None;
    }

    /** Joins the dial in progress or registers one. */
    method Claim(t: Tid) returns (flight: DialFlight, joined: bool)
      modifies this`dohDial, this`made
      ensures joined <==> old(dohDial).Some?
      ensures dohDial == Some(flight) && flight == Claimed(old(dohDial), old(made), t)
      ensures made == if joined then old(made) else old(made) + 1
    {
      if dohDial.Some? { return dohDial.value, true; }
      flight, joined := DialFlight(made, t), false;
      dohDial, made := Some(flight), made + 1;
    }

    /** Installs what was dialed, if anything, and ends the dial. */
    method Publish(conn: Option<Conn>)
      modifies this`doh, this`dohDial
      ensures doh == Installed(old(doh), conn) && dohDial == None
      ensures conn.Some? ==> doh == conn
      ensures conn.None? ==> doh == old(doh)
    {
      if conn.Some? { doh := conn; }
      dohDial := None;
    }
  }

  function Claimed(dial: Option<DialFlight>, made: nat, t: Tid): DialFlight {
    if dial.Some? then dial.value else DialFlight(made, t)
  }

  function Installed(slot: Option<Conn>, conn: Option<Conn>): Option<Conn> {
    if conn.Some? then conn else slot
  }

  // ---------------------------------------------------------------- the machine

  /** Where a thread is. A lookup runs from Live to Query; Ask and Report are a query goroutine,
      Sweep and ShutSet the body of Close. Invalidate and CloseVictim are shared, and resume at
      the label the thread has noted. */
  datatype Label =
    | Start
    | Live          // :1004
    | Claim         // :930
    | Wait          // :934
    | Dialing       // :953
    | FirstCheck    // :959
    | Publish       // :964
    | Signal        // :971
    | SecondCheck   // :979
    | Query         // :1162
    | Ask           // :1226
    | Report        // :1151
    | Invalidate    // :432, :980, :1233, :1242
    | CloseVictim   // :960, :1018, :1050
    | Sweep         // :1301
    | ShutSet       // :1303
    | Done

  datatype End = DialError | FlightError(flight: Flight) | ContextError | Answered | Over

  /** A thread's local variables: where it goes on after closing something, the connection its
      first attempt failed on, the flight it waits for, owns or must signal, the slot as it saw
      it when it claimed the dial, the connection it has in hand (dialed, or to be closed), the
      one it installed and must still check against Close, and the one it puts its question on. */
  datatype Thread = Thread(
    pc: Label, resume: Label, end: End, failed: Option<Conn>,
    waits: Option<Flight>, owns: Option<Flight>, signals: Option<Flight>,
    seen: Option<Conn>, hand: Option<Conn>, pending: Option<Conn>, uses: Option<Conn>)

  const IDLE: Thread := Thread(Start, Done, Over, None, None, None, None, None, None, None, None)

  /** Close as it is written, invalidating before it sets closed, and the other way round. */
  datatype Order = AsWritten | Swapped

  /** dohDial, how many dials were registered, what each published and which are done. */
  datatype Flights = Flights(dial: Option<DialFlight>, made: nat, results: map<Flight, Option<Conn>>, done: set<Flight>)

  /** Every connection's fate: how many were dialed, which were closed or overwritten in the slot
      without being closed, which have left the slot, and which a query goroutine has reported. */
  datatype Fates = Fates(next: nat, shut: set<Conn>, lost: set<Conn>, left: set<Conn>, reported: set<Conn>)

  /** How far Close is and, for the race with it, which connections were installed after its
      invalidation (late) and which of those also passed the second check before closed was set
      (slipped). */
  datatype Closing = Closing(order: Order, closer: Option<Tid>, swept: bool, closed: bool, late: set<Conn>,
                             slipped: set<Conn>)

  datatype State = State(slot: Option<Conn>, dials: Flights, fate: Fates, close: Closing, threads: map<Tid, Thread>)

  function At(threads: map<Tid, Thread>, t: Tid): Thread {
    if t in threads then threads[t] else IDLE
  }

  function Set(threads: map<Tid, Thread>, t: Tid, th: Thread): (r: map<Tid, Thread>)
    ensures forall u: Tid {:trigger At(r, u)} :: At(r, u) == if u == t then th else At(threads, u)
  {
    threads[t := th]
  }

  predicate Init(s: State) {
    s == State(None, Flights(None, 0, map[], {}), Fates(0, {}, {}, {}, {}),
               Closing(s.close.order, None, false, false, {}, {}), map[])
  }

  datatype Action =
    | BeginLookup(t: Tid)
    | BeginAsk(t: Tid, lookup: Tid)
    | BeginDrop(t: Tid)
    | BeginClose(t: Tid)
    | LiveEnds(t: Tid, dead: bool)
    | Claims(t: Tid)
    | Wakes(t: Tid)
    | GivesUp(t: Tid)
    | DialEnds(t: Tid, ok: bool)
    | FirstChecked(t: Tid)
    | Publishes(t: Tid)
    | Signals(t: Tid)
    | SecondChecked(t: Tid)
    | AskEnds(t: Tid, transport: bool)
    | Reports(t: Tid)
    | QueryEnds(t: Tid)
    | QueryRetries(t: Tid)
    | Invalidates(t: Tid)
    | Closes(t: Tid)
    | Sweeps(t: Tid)
    | Shuts(t: Tid)

  /** A thread after a section: it closes what the section took out, if anything, and resumes. */
  function Onward(th: Thread, victim: Option<Conn>): Thread {
    if victim.Some? then th.(pc := CloseVictim, hand := victim) else th.(pc := th.resume)
  }

  function Leaves(left: set<Conn>, victim: Option<Conn>): set<Conn> {
    if victim.Some? then left + {victim.value} else left
  }

  predicate Next(s: State, a: Action, s': State) {
    var th := At(s.threads, a.t);
    match a
    case BeginLookup(t) =>
      th.pc.Start? && s' == s.(threads := Set(s.threads, t, th.(pc := Live)))
    case BeginAsk(t, lookup) =>
      th.pc.Start? && At(s.threads, lookup).pc.Query?
      && s' == s.(threads := Set(s.threads, t, th.(pc := Ask, uses := At(s.threads, lookup).uses)))
    case BeginDrop(t) =>
      // What reconnect does last: invalidateDoH(nil).
      th.pc.Start? && s' == s.(threads := Set(s.threads, t, th.(pc := Invalidate)))
    case BeginClose(t) =>
      th.pc.Start? && s.close.closer.None?
      && s' == s.(close := s.close.(closer := Some(t)),
                  threads := Set(s.threads, t, th.(pc := if s.close.order == AsWritten then Sweep else ShutSet)))
    case LiveEnds(t, dead) =>
      th.pc.Live?
      && (var taken := LiveSection(s.slot, dead);
          s' == s.(slot := taken.slot, fate := s.fate.(left := Leaves(s.fate.left, taken.victim)),
                   threads := Set(s.threads, t, if taken.slot.Some? then th.(pc := Query, uses := s.slot)
                                                else Onward(th.(resume := Claim), taken.victim))))
    case Claims(t) =>
      th.pc.Claim?
      && (var flight := Claimed(s.dials.dial, s.dials.made, t);
          s' == if s.dials.dial.Some? then s.(threads := Set(s.threads, t, th.(pc := Wait, waits := Some(flight.id))))
                else s.(dials := s.dials.(dial := Some(flight), made := s.dials.made + 1),
                        threads := Set(s.threads, t, th.(pc := Dialing, owns := Some(flight.id), seen := s.slot))))
    case Wakes(t) =>
      // An error is handed on; otherwise the slot is checked again.
      th.pc.Wait? && th.waits.Some? && th.waits.value in s.dials.done
      && (var f := th.waits.value;
          s' == s.(threads := Set(s.threads, t, if f in s.dials.results && s.dials.results[f].None?
                                                then th.(pc := Done, end := FlightError(f), waits := None)
                                                else th.(pc := Live, waits := None))))
    case GivesUp(t) =>
      th.pc.Wait? && s' == s.(threads := Set(s.threads, t, th.(pc := Done, end := ContextError, waits := None)))
    case DialEnds(t, ok) =>
      th.pc.Dialing?
      && s' == if ok then s.(fate := s.fate.(next := s.fate.next + 1),
                             threads := Set(s.threads, t, th.(pc := FirstCheck, hand := Some(s.fate.next))))
               else s.(threads := Set(s.threads, t, th.(pc := Publish)))
    case FirstChecked(t) =>
      th.pc.FirstCheck?
      && s' == s.(threads := Set(s.threads, t, if s.close.closed then th.(pc := CloseVictim, resume := Publish)
                                               else th.(pc := Publish)))
    case Publishes(t) =>
      th.pc.Publish? && th.owns.Some?
      && (var over := if th.hand.Some? then s.slot else None;
          s' == s.(slot := Installed(s.slot, th.hand),
                   dials := s.dials.(dial := None, results := s.dials.results[th.owns.value := th.hand]),
                   fate := s.fate.(lost := Leaves(s.fate.lost, over), left := Leaves(s.fate.left, over)),
                   close := s.close.(late := if s.close.swept then Leaves(s.close.late, th.hand) else s.close.late),
                   threads := Set(s.threads, t, th.(pc := Signal, owns := None, signals := th.owns,
                                                    hand := None, pending := th.hand))))
    case Signals(t) =>
      th.pc.Signal? && th.signals.Some?
      && s' == s.(dials := s.dials.(done := s.dials.done + {th.signals.value}),
                  threads := Set(s.threads, t, if th.pending.Some? then th.(pc := SecondCheck, signals := None)
                                               else th.(pc := Done, end := DialError, signals := None)))
    case SecondChecked(t) =>
      th.pc.SecondCheck? && th.pending.Some?
      && s' == if s.close.closed then s.(threads := Set(s.threads, t, th.(pc := Invalidate, resume := Done)))
               else s.(close := s.close.(slipped := s.close.slipped + ({th.pending.value} * s.close.late)),
                       threads := Set(s.threads, t, th.(pc := Query, pending := None, uses := th.pending)))
    case AskEnds(t, transport) =>
      th.pc.Ask?
      && s' == s.(threads := Set(s.threads, t, if transport then th.(pc := Invalidate, resume := Report)
                                               else th.(pc := Done)))
    case Reports(t) =>
      th.pc.Report? && th.uses.Some?
      && s' == s.(fate := s.fate.(reported := s.fate.reported + {th.uses.value}),
                  threads := Set(s.threads, t, th.(pc := Done)))
    case QueryEnds(t) =>
      th.pc.Query? && s' == s.(threads := Set(s.threads, t, th.(pc := Done, end := Answered)))
    case QueryRetries(t) =>
      // A transport failure on the connection has been reported, and this was the first attempt.
      th.pc.Query? && th.failed.None? && th.uses.Some? && th.uses.value in s.fate.reported
      && s' == s.(threads := Set(s.threads, t, th.(pc := Live, failed := th.uses, uses := None)))
    case Invalidates(t) =>
      // The argument is the connection installed or asked, and nil for a reconnect.
      th.pc.Invalidate?
      && (var taken := InvalidateSection(s.slot, if th.pending.Some? then th.pending else th.uses);
          s' == s.(slot := taken.slot, fate := s.fate.(left := Leaves(s.fate.left, taken.victim)),
                   threads := Set(s.threads, t, Onward(th.(pending := None), taken.victim))))
    case Closes(t) =>
      th.pc.CloseVictim? && th.hand.Some?
      && s' == s.(fate := s.fate.(shut := s.fate.shut + {th.hand.value}),
                  threads := Set(s.threads, t, th.(pc := th.resume, hand := None)))
    case Sweeps(t) =>
      th.pc.Sweep?
      && (var taken := InvalidateSection(s.slot, None);
          s' == s.(slot := taken.slot, fate := s.fate.(left := Leaves(s.fate.left, taken.victim)),
                   close := s.close.(swept := true),
                   threads := Set(s.threads, t,
                                  Onward(th.(resume := if s.close.order == AsWritten then ShutSet else Done),
                                         taken.victim))))
    case Shuts(t) =>
      th.pc.ShutSet?
      && s' == s.(close := s.close.(closed := true),
                  threads := Set(s.threads, t, th.(pc := if s.close.order == AsWritten then Done else Sweep)))
  }
}
