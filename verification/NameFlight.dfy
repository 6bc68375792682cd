/** One lookup per name at a time (tunnel/masque.go resolveDNS): every thread that asks for a
    name while it is being resolved waits for the one that resolves it. Each critical section
    of dnsFlightMu is one step, and so is every other access to shared data. */
module NameFlight {
  import opened Basics
  import opened Addresses

  type Tid = nat
  type Host = string
  type Flight = nat

  /** What kind of error a lookup ends with. */
  datatype Error = Transport | NameLevel | Expired

  /** The two fields a flight hands to its waiters. */
  datatype Answer = Answer(ip: Option<Ip>, err: Option<Error>)

  /** What resolveDNS returns: a cache hit, a flight's answer, or the caller's own context error. */
  datatype Outcome = FromCache(ip: Ip) | FromFlight(flight: Flight, answer: Answer) | GaveUp

  datatype Pc =
    | Start
    | CacheRead(host: Host)                         // :782
    | Enter(host: Host)                             // :791
    | Wait(flight: Flight)                          // :794
    | Attempt(flight: Flight, tries: nat)           // :817
    | Store(flight: Flight, ip: Ip)                 // :822
    | Publish(flight: Flight, answer: Answer)       // :835
    | Signal(flight: Flight, answer: Answer)        // :837
    | Clean(flight: Flight, answer: Answer)         // :840
    | Returned(outcome: Outcome)

  /** A flight's record; its leader and the number of attempts are kept for the statements. */
  datatype Record = Record(host: Host, leader: Tid, answer: Option<Answer>, done: bool, attempts: nat)

  datatype State = State(table: map<Host, Flight>, flights: map<Flight, Record>, next: nat, pc: map<Tid, Pc>)

  /** Where a thread is; one that has done nothing yet is at the start. */
  function At(pc: map<Tid, Pc>, t: Tid): Pc {
    if t in pc then pc[t] else Start
  }

  function Move(pc: map<Tid, Pc>, t: Tid, p: Pc): (r: map<Tid, Pc>)
    ensures forall u: Tid {:trigger At(r, u)} :: At(r, u) == if u == t then p else At(pc, u)
  {
    pc[t := p]
  }

  predicate Init(s: State) {
    s == State(map[], map[], 0, map[])
  }

  // ---------------------------------------------------------------- the dnsFlight map

  /** The table of flights as the client holds it, with the two sections that change it. */
  class FlightTable {
    var dnsFlight: map<Host, Flight>
    var made: nat

    constructor ()
      ensures dnsFlight == map[] && made == 0
    {
      dnsFlight, made := map[], 0;
    }

    /** Joins the flight for this host or registers a new one. */
    method JoinOrLead(host: Host) returns (flight: Flight, leads: bool)
      modifies this
      ensures leads <==> host !in old(dnsFlight)
      ensures flight == Entered(old(dnsFlight), old(made), host)
      ensures dnsFlight == old(dnsFlight)[host := flight]
      ensures made == if leads then old(made) + 1 else old(made)
    {
      if host in dnsFlight { return dnsFlight[host], false; }
      flight, leads := made, true;
      dnsFlight, made := dnsFlight[host := flight], made + 1;
    }

    /** A leader's last step: whoever asks for the host next leads a flight of its own, and
        callers for every other host find what they would have found. */
    method Delete(host: Host)
      modifies this
      ensures dnsFlight == Deleted(old(dnsFlight), host) && made == old(made)
      ensures Entered(dnsFlight, made, host) == made
      ensures forall h :: h != host ==> Entered(dnsFlight, made, h) == old(Entered(dnsFlight, made, h))
    {
      dnsFlight := dnsFlight - {host};
    }
  }

  function Deleted(table: map<Host, Flight>, host: Host): map<Host, Flight> {
    table - {host}
  }

  function Entered(table: map<Host, Flight>, made: nat, host: Host): Flight {
    if host in table then table[host] else made
  }

  // ---------------------------------------------------------------- steps

  /** shouldRetryDoH. */
  predicate ShouldRetry(err: Error, expired: bool) {
    err == Transport && !expired
  }

  datatype Action =
    | Begin(t: Tid, host: Host)
    | CacheHit(t: Tid, ip: Ip)
    | CacheMiss(t: Tid)
    | Join(t: Tid)
    | Lead(t: Tid)
    | Wake(t: Tid)
    | GiveUp(t: Tid)
    | Succeed(t: Tid, ip: Ip)
    | Fail(t: Tid, err: Error, expired: bool)
    | Stored(t: Tid)
    | Published(t: Tid)
    | Signalled(t: Tid)
    | Cleaned(t: Tid)

  predicate Next(s: State, a: Action, s': State) {
    match a
    case Begin(t, host) =>
      At(s.pc, t).Start? && s' == s.(pc := Move(s.pc, t, CacheRead(host)))
    case CacheHit(t, ip) =>
      At(s.pc, t).CacheRead? && s' == s.(pc := Move(s.pc, t, Returned(FromCache(ip))))
    case CacheMiss(t) =>
      At(s.pc, t).CacheRead? && s' == s.(pc := Move(s.pc, t, Enter(At(s.pc, t).host)))
    case Join(t) =>
      At(s.pc, t).Enter? && At(s.pc, t).host in s.table
      && s' == s.(pc := Move(s.pc, t, Wait(Entered(s.table, s.next, At(s.pc, t).host))))
    case Lead(t) =>
      At(s.pc, t).Enter? && At(s.pc, t).host !in s.table
      && (var host := At(s.pc, t).host;
          var f := Entered(s.table, s.next, host);
          s' == State(s.table[host := f], s.flights[f := Record(host, t, None, false, 0)], s.next + 1,
                      Move(s.pc, t, Attempt(f, 0))))
    case Wake(t) =>
      // A waiter reads the flight's fields once done is closed.
      At(s.pc, t).Wait? && At(s.pc, t).flight in s.flights && s.flights[At(s.pc, t).flight].done
      && (var f := At(s.pc, t).flight;
          var answer := if s.flights[f].answer.Some? then s.flights[f].answer.value else Answer(None, None);
          s' == s.(pc := Move(s.pc, t, Returned(FromFlight(f, answer)))))
    case GiveUp(t) =>
      At(s.pc, t).Wait? && s' == s.(pc := Move(s.pc, t, Returned(GaveUp)))
    case Succeed(t, ip) =>
      At(s.pc, t).Attempt? && At(s.pc, t).flight in s.flights && ip != []
      && (var f := At(s.pc, t).flight;
          s' == s.(flights := s.flights[f := s.flights[f].(attempts := s.flights[f].attempts + 1)],
                   pc := Move(s.pc, t, Store(f, ip))))
    case Fail(t, err, expired) =>
      At(s.pc, t).Attempt? && At(s.pc, t).flight in s.flights
      && (var f, tries := At(s.pc, t).flight, At(s.pc, t).tries;
          s' == s.(flights := s.flights[f := s.flights[f].(attempts := s.flights[f].attempts + 1)],
                   pc := Move(s.pc, t, if ShouldRetry(err, expired) && tries + 1 < 2 then Attempt(f, tries + 1)
                                    else Publish(f, Answer(None, Some(err))))))
    case Stored(t) =>
      At(s.pc, t).Store?
      && s' == s.(pc := Move(s.pc, t, Publish(At(s.pc, t).flight, Answer(Some(At(s.pc, t).ip), None))))
    case Published(t) =>
      At(s.pc, t).Publish? && At(s.pc, t).flight in s.flights
      && (var f, answer := At(s.pc, t).flight, At(s.pc, t).answer;
          s' == s.(flights := s.flights[f := s.flights[f].(answer := Some(answer))],
                   pc := Move(s.pc, t, Signal(f, answer))))
    case Signalled(t) =>
      At(s.pc, t).Signal? && At(s.pc, t).flight in s.flights
      && (var f, answer := At(s.pc, t).flight, At(s.pc, t).answer;
          s' == s.(flights := s.flights[f := s.flights[f].(done := true)], pc := Move(s.pc, t, Clean(f, answer))))
    case Cleaned(t) =>
      At(s.pc, t).Clean? && At(s.pc, t).flight in s.flights
      && (var f, answer := At(s.pc, t).flight, At(s.pc, t).answer;
          s' == s.(table := Deleted(s.table, s.flights[f].host), pc := Move(s.pc, t, Returned(FromFlight(f, answer)))))
  }

  // ---------------------------------------------------------------- invariant

  /** The flight a thread is resolving, from registering it to deleting it. */
  function Leads(p: Pc): Option<Flight> {
    match p
    case Attempt(f, _) => Some(f)
    case Store(f, _) => Some(f)
    case Publish(f, _) => Some(f)
    case Signal(f, _) => Some(f)
    case Clean(f, _) => Some(f)
    case _ => None
  }

  predicate OneSet(a: Answer) {
    a.ip.Some? != a.err.Some?
  }

  /** What a leader's record looks like at each point. */
  predicate LeaderFits(p: Pc, r: Record) {
    match p
    case Attempt(_, tries) => r.answer.None? && !r.done && tries < 2 && r.attempts == tries
    case Store(_, ip) => r.answer.None? && !r.done && r.attempts <= 2
    case Publish(_, a) => r.answer.None? && !r.done && r.attempts <= 2 && OneSet(a)
    case Signal(_, a) => r.answer == Some(a) && !r.done && r.attempts <= 2 && OneSet(a)
    case Clean(_, a) => r.answer == Some(a) && r.done && r.attempts <= 2 && OneSet(a)
    case _ => true
  }

  /** The table lists exactly the flights that have a leader at work. */
  ghost predicate TableInv(s: State) {
    && (forall f :: f in s.flights ==> f < s.next)
    && (forall h :: h in s.table ==>
          s.table[h] in s.flights && s.flights[s.table[h]].host == h
          && Leads(At(s.pc, s.flights[s.table[h]].leader)) == Some(s.table[h]))
    && (forall t: Tid :: Leads(At(s.pc, t)).Some? ==>
          (var f := Leads(At(s.pc, t)).value;
           f in s.flights && s.flights[f].leader == t
           && s.flights[f].host in s.table && s.table[s.flights[f].host] == f))
  }

  /** A record agrees with its leader, who leads it until it is done. */
  predicate RecordFits(pc: map<Tid, Pc>, f: Flight, r: Record) {
    && (r.done || Leads(At(pc, r.leader)) == Some(f))
    && (r.done ==> r.answer.Some? && OneSet(r.answer.value) && r.attempts <= 2)
  }

  ghost predicate RecordInv(s: State) {
    && (forall t: Tid :: Leads(At(s.pc, t)).Some? ==>
          Leads(At(s.pc, t)).value in s.flights && LeaderFits(At(s.pc, t), s.flights[Leads(At(s.pc, t)).value]))
    && (forall f :: f in s.flights ==> RecordFits(s.pc, f, s.flights[f]))
  }

  ghost predicate WaiterInv(s: State) {
    && (forall t: Tid :: At(s.pc, t).Wait? ==> At(s.pc, t).flight in s.flights)
    && (forall t: Tid :: At(s.pc, t).Returned? && At(s.pc, t).outcome.FromFlight? ==>
          (var o := At(s.pc, t).outcome;
           o.flight in s.flights && s.flights[o.flight].done && s.flights[o.flight].answer == Some(o.answer)
           && OneSet(o.answer)))
  }

  ghost predicate Inv(s: State) {
    TableInv(s) && RecordInv(s) && WaiterInv(s)
  }

  lemma InitKeeps(s: State)
    requires Init(s)
    ensures Inv(s)
  {
  }

  /** The steps that move a thread and change nothing shared. */
  predicate MovesOnly(a: Action) {
    a.Begin? || a.CacheHit? || a.CacheMiss? || a.Join? || a.Wake? || a.GiveUp? || a.Stored?
  }

  /** The steps of a leader that write to its own record. */
  predicate WritesRecord(a: Action) {
    a.Succeed? || a.Fail? || a.Published? || a.Signalled?
  }

  /** What such a step leaves alone: the table, who leads what, and every record's identity. */
  ghost predicate SameLeads(s: State, s': State) {
    && s'.table == s.table && s'.next == s.next && s'.flights.Keys == s.flights.Keys
    && (forall f :: f in s.flights ==>
          s'.flights[f].host == s.flights[f].host && s'.flights[f].leader == s.flights[f].leader)
    && (forall t: Tid :: Leads(At(s'.pc, t)) == Leads(At(s.pc, t)))
  }

  lemma MovesLeaveLeads(s: State, a: Action, s': State)
    requires Next(s, a, s') && MovesOnly(a)
    ensures SameLeads(s, s')
  {
  }

  lemma RecordsLeaveLeadsAttempting(s: State, a: Action, s': State)
    requires Next(s, a, s') && WritesRecord(a)
    requires a.Succeed? || a.Fail?
    ensures SameLeads(s, s')
  {
  }

  lemma RecordsLeaveLeadsEnding(s: State, a: Action, s': State)
    requires Next(s, a, s') && WritesRecord(a)
    requires !a.Succeed? && !a.Fail?
    ensures SameLeads(s, s')
  {
  }

  lemma RecordsLeaveLeads(s: State, a: Action, s': State)
    requires Next(s, a, s') && WritesRecord(a)
    ensures SameLeads(s, s')
  {
    if a.Succeed? || a.Fail? { RecordsLeaveLeadsAttempting(s, a, s'); } else { RecordsLeaveLeadsEnding(s, a, s'); }
  }

  lemma TableKept(s: State, s': State)
    requires TableInv(s) && SameLeads(s, s')
    ensures TableInv(s')
  {
  }

  lemma TableKeptByLead(s: State, a: Action, s': State)
    requires TableInv(s) && Next(s, a, s') && a.Lead?
    ensures TableInv(s')
  {
  }

  lemma TableKeptByClean(s: State, a: Action, s': State)
    requires Inv(s) && Next(s, a, s') && a.Cleaned?
    ensures TableInv(s')
  {
  }

  lemma RecordsKeptByMovesOnly(s: State, a: Action, s': State)
    requires TableInv(s) && RecordInv(s) && Next(s, a, s') && !WritesRecord(a)
    requires MovesOnly(a)
    ensures RecordInv(s')
  {
  }

  lemma RecordsKeptByMovesLeading(s: State, a: Action, s': State)
    requires TableInv(s) && RecordInv(s) && Next(s, a, s') && !WritesRecord(a)
    requires !MovesOnly(a)
    ensures RecordInv(s')
  {
  }

  lemma RecordsKeptByMoves(s: State, a: Action, s': State)
    requires TableInv(s) && RecordInv(s) && Next(s, a, s') && !WritesRecord(a)
    ensures RecordInv(s')
  {
    if MovesOnly(a) { RecordsKeptByMovesOnly(s, a, s'); } else { RecordsKeptByMovesLeading(s, a, s'); }
  }

  lemma OwnRecordFits(s: State, a: Action, s': State)
    requires Next(s, a, s') && WritesRecord(a) && Leads(At(s.pc, a.t)).Some?
    requires Leads(At(s.pc, a.t)).value in s.flights
    requires var f := Leads(At(s.pc, a.t)).value;
             LeaderFits(At(s.pc, a.t), s.flights[f]) && s.flights[f].leader == a.t
    ensures var f := Leads(At(s.pc, a.t)).value;
            && f in s'.flights && LeaderFits(At(s'.pc, a.t), s'.flights[f]) && RecordFits(s'.pc, f, s'.flights[f])
            && (forall g :: g in s.flights && g != f ==> g in s'.flights && s'.flights[g] == s.flights[g])
            && (forall u: Tid :: u != a.t ==> At(s'.pc, u) == At(s.pc, u))
  {
  }

  lemma RecordsFrame(s: State, s': State, t: Tid, f: Flight)
    requires TableInv(s) && RecordInv(s) && SameLeads(s, s') && Leads(At(s.pc, t)) == Some(f)
    requires f in s'.flights && LeaderFits(At(s'.pc, t), s'.flights[f]) && RecordFits(s'.pc, f, s'.flights[f])
    requires forall g :: g in s.flights && g != f ==> g in s'.flights && s'.flights[g] == s.flights[g]
    requires forall u: Tid :: u != t ==> At(s'.pc, u) == At(s.pc, u)
    ensures RecordInv(s')
  {
    assert forall u: Tid :: u != t && Leads(At(s.pc, u)).Some? ==> Leads(At(s.pc, u)) != Some(f);
  }

  lemma RecordsKeptByRecords(s: State, a: Action, s': State)
    requires Inv(s) && Next(s, a, s') && WritesRecord(a)
    ensures RecordInv(s')
  {
    RecordsLeaveLeads(s, a, s');
    OwnRecordFits(s, a, s');
    RecordsFrame(s, s', a.t, Leads(At(s.pc, a.t)).value);
  }

  lemma WaitersKeptByRecords(s: State, a: Action, s': State)
    requires TableInv(s) && RecordInv(s) && WaiterInv(s) && Next(s, a, s')
    requires WritesRecord(a)
    ensures WaiterInv(s')
  {
  }

  lemma WaitersKeptByMoves(s: State, a: Action, s': State)
    requires TableInv(s) && RecordInv(s) && WaiterInv(s) && Next(s, a, s')
    requires !WritesRecord(a)
    ensures WaiterInv(s')
  {
  }

  lemma WaitersKept(s: State, a: Action, s': State)
    requires TableInv(s) && RecordInv(s) && WaiterInv(s) && Next(s, a, s')
    ensures WaiterInv(s')
  {
    if WritesRecord(a) { WaitersKeptByRecords(s, a, s'); } else { WaitersKeptByMoves(s, a, s'); }
  }

  lemma InvKept(s: State, a: Action, s': State)
    requires Inv(s) && Next(s, a, s')
    ensures Inv(s')
  {
    if MovesOnly(a) {
      MovesLeaveLeads(s, a, s');
      TableKept(s, s');
    } else if WritesRecord(a) {
      RecordsLeaveLeads(s, a, s');
      TableKept(s, s');
    } else if a.Lead? {
      TableKeptByLead(s, a, s');
    } else {
      TableKeptByClean(s, a, s');
    }
    if WritesRecord(a) {
      RecordsKeptByRecords(s, a, s');
    } else {
      RecordsKeptByMoves(s, a, s');
    }
    WaitersKept(s, a, s');
  }

  // ---------------------------------------------------------------- whole runs

  /** A run: any number of threads, in any interleaving. */
  ghost predicate Run(ss: seq<State>, acts: seq<Action>) {
    && |ss| == |acts| + 1
    && Init(ss[0])
    && forall i :: 0 <= i < |acts| ==> Next(ss[i], acts[i], ss[i + 1])
  }

  lemma {:induction false} RunKeepsInv(ss: seq<State>, acts: seq<Action>, i: nat)
    requires Run(ss, acts) && i < |ss|
    ensures Inv(ss[i])
  {
    if i == 0 {
      InitKeeps(ss[0]);
    } else {
      RunKeepsInv(ss, acts, i - 1);
      InvKept(ss[i - 1], acts[i - 1], ss[i]);
    }
  }

  /** At most one thread at a time resolves a given name. */
  lemma OneLeaderPerName(ss: seq<State>, acts: seq<Action>, i: nat, t: Tid, u: Tid)
    requires Run(ss, acts) && i < |ss|
    requires Leads(At(ss[i].pc, t)).Some? && Leads(At(ss[i].pc, u)).Some?
    ensures Leads(At(ss[i].pc, t)).value in ss[i].flights && Leads(At(ss[i].pc, u)).value in ss[i].flights
    ensures ss[i].flights[Leads(At(ss[i].pc, t)).value].host == ss[i].flights[Leads(At(ss[i].pc, u)).value].host ==>
            t == u
  {
    RunKeepsInv(ss, acts, i);
  }

  /** Whoever joins or leads waits for, or resolves, the very name it asked for. */
  lemma FlightsAreForTheHost(ss: seq<State>, acts: seq<Action>, i: nat)
    requires Run(ss, acts) && i < |acts| && (acts[i].Join? || acts[i].Lead?)
    ensures At(ss[i].pc, acts[i].t).Enter?
    ensures var p := At(ss[i + 1].pc, acts[i].t);
            && (p.Wait? || p.Attempt?) && p.flight in ss[i + 1].flights
            && ss[i + 1].flights[p.flight].host == At(ss[i].pc, acts[i].t).host
            && (p.Attempt? <==> ss[i + 1].flights[p.flight].leader == acts[i].t && p.flight !in ss[i].flights)
  {
    RunKeepsInv(ss, acts, i);
    assert Next(ss[i], acts[i], ss[i + 1]);
  }

  /** A flight leaves the table only when its own leader deletes it. */
  lemma OnlyTheLeaderDeletes(ss: seq<State>, acts: seq<Action>, i: nat, host: Host)
    requires Run(ss, acts) && i < |acts| && host in ss[i].table
    requires host !in ss[i + 1].table || ss[i + 1].table[host] != ss[i].table[host]
    ensures ss[i].table[host] in ss[i].flights
    ensures acts[i].Cleaned? && acts[i].t == ss[i].flights[ss[i].table[host]].leader
  {
    RunKeepsInv(ss, acts, i);
  }

  /** The ways a lookup can end: on a hit, which brings what was cached; on its own context while
      it waits; or with the answer of the flight it waited for or led. */
  lemma HowLookupsEnd(ss: seq<State>, acts: seq<Action>, i: nat, t: Tid)
    requires Run(ss, acts) && i < |acts| && !At(ss[i].pc, t).Returned? && At(ss[i + 1].pc, t).Returned?
    ensures match At(ss[i + 1].pc, t).outcome
            case FromCache(ip) => acts[i] == CacheHit(t, ip)
            case GaveUp => acts[i] == GiveUp(t) && At(ss[i].pc, t).Wait?
            case FromFlight(f, answer) =>
              f in ss[i].flights && ss[i].flights[f].done && ss[i].flights[f].answer == Some(answer)
              && ((acts[i] == Wake(t) && At(ss[i].pc, t) == Wait(f))
                  || (acts[i] == Cleaned(t) && At(ss[i].pc, t) == Clean(f, answer)))
  {
    RunKeepsInv(ss, acts, i);
    assert Next(ss[i], acts[i], ss[i + 1]);
  }

  /** Whatever a thread gets from a flight, as its leader or as a waiter, at any time of any run,
      is the one final answer of that flight: exactly one of address and error is set, and the
      leader made at most two attempts. */
  lemma EveryoneGetsTheLeadersAnswer(ss: seq<State>, acts: seq<Action>, i: nat, t: Tid, u: Tid)
    requires Run(ss, acts) && i < |ss|
    requires At(ss[i].pc, t).Returned? && At(ss[i].pc, t).outcome.FromFlight?
    ensures var o := At(ss[i].pc, t).outcome;
            && o.flight in ss[i].flights && ss[i].flights[o.flight].done
            && ss[i].flights[o.flight].answer == Some(o.answer)
            && OneSet(o.answer) && ss[i].flights[o.flight].attempts <= 2
    ensures var o := At(ss[i].pc, t).outcome;
            At(ss[i].pc, u).Returned? && At(ss[i].pc, u).outcome.FromFlight?
                && At(ss[i].pc, u).outcome.flight == o.flight
            ==> At(ss[i].pc, u).outcome == o
  {
    RunKeepsInv(ss, acts, i);
  }

  /** A published answer never changes. */
  lemma AnswersAreFinal(ss: seq<State>, acts: seq<Action>, i: nat, f: Flight)
    requires Run(ss, acts) && i < |acts| && f in ss[i].flights && ss[i].flights[f].answer.Some?
    ensures f in ss[i + 1].flights && ss[i + 1].flights[f].answer == ss[i].flights[f].answer
    ensures ss[i].flights[f].done ==> ss[i + 1].flights[f].done
  {
    RunKeepsInv(ss, acts, i);
    AnswerStays(ss[i], acts[i], ss[i + 1], f);
  }

  lemma AnswerStays(s: State, a: Action, s': State, f: Flight)
    requires Inv(s) && Next(s, a, s') && f in s.flights && s.flights[f].answer.Some?
    ensures f in s'.flights && s'.flights[f].answer == s.flights[f].answer
    ensures s.flights[f].done ==> s'.flights[f].done
  {
    if WritesRecord(a) {
      var g := Leads(At(s.pc, a.t)).value;
      assert LeaderFits(At(s.pc, a.t), s.flights[g]);
    }
  }

  /** No waiter is forgotten: a flight that is not done has its leader at work on it, and that
      leader can always take its next step, whatever the others do. */
  lemma WaitersAreServed(ss: seq<State>, acts: seq<Action>, i: nat, t: Tid) returns (a: Action, next: State)
    requires Run(ss, acts) && i < |ss| && At(ss[i].pc, t).Wait?
    ensures At(ss[i].pc, t).flight in ss[i].flights
    ensures Next(ss[i], a, next)
    ensures var r := ss[i].flights[At(ss[i].pc, t).flight];
            a.t == if r.done then t else r.leader
    ensures var f := At(ss[i].pc, t).flight;
            ss[i].flights[f].done ==> At(next.pc, t).Returned?
    ensures var f := At(ss[i].pc, t).flight;
            !ss[i].flights[f].done ==> f in next.flights && Work(At(next.pc, a.t)) < Work(At(ss[i].pc, a.t))
  {
    RunKeepsInv(ss, acts, i);
    var s := ss[i];
    var f := At(s.pc, t).flight;
    var leader := s.flights[f].leader;
    if s.flights[f].done {
      a := Wake(t);
      next := s.(pc := Move(s.pc, t, Returned(FromFlight(f, s.flights[f].answer.value))));
    } else {
      a, next := LeaderStep(s, leader);
    }
  }

  /** How many steps a leader has at most left to take. */
  function Work(p: Pc): nat {
    match p
    case Attempt(_, tries) => if tries == 0 then 6 else 5
    case Store(_, _) => 4
    case Publish(_, _) => 3
    case Signal(_, _) => 2
    case Clean(_, _) => 1
    case _ => 0
  }

  lemma LeaderStep(s: State, t: Tid) returns (a: Action, next: State)
    requires Leads(At(s.pc, t)).Some? && Leads(At(s.pc, t)).value in s.flights
    ensures Next(s, a, next) && a.t == t && Leads(At(s.pc, t)).value in next.flights
    ensures Work(At(next.pc, t)) < Work(At(s.pc, t))
  {
    var f := Leads(At(s.pc, t)).value;
    match At(s.pc, t) {
      case Attempt(_, tries) =>
        a := Fail(t, NameLevel, false);
        next := s.(flights := s.flights[f := s.flights[f].(attempts := s.flights[f].attempts + 1)],
                   pc := Move(s.pc, t, Publish(f, Answer(None, Some(NameLevel)))));
      case Store(_, ip) =>
        a := Stored(t);
        next := s.(pc := Move(s.pc, t, Publish(f, Answer(Some(ip), None))));
      case Publish(_, answer) =>
        a := Published(t);
        next := s.(flights := s.flights[f := s.flights[f].(answer := Some(answer))],
                   pc := Move(s.pc, t, Signal(f, answer)));
      case Signal(_, answer) =>
        a := Signalled(t);
        next := s.(flights := s.flights[f := s.flights[f].(done := true)], pc := Move(s.pc, t, Clean(f, answer)));
      case Clean(_, answer) =>
        a := Cleaned(t);
        next := s.(table := s.table - {s.flights[f].host}, pc := Move(s.pc, t, Returned(FromFlight(f, answer))));
    }
  }

  /** Every step of a leader, whichever way its attempts go, brings it closer to the end. */
  lemma LeadersFinish(s: State, a: Action, s': State)
    requires Inv(s) && Next(s, a, s') && Leads(At(s.pc, a.t)).Some?
    ensures Work(At(s'.pc, a.t)) < Work(At(s.pc, a.t))
    ensures At(s'.pc, a.t).Attempt? <==>
              a.Fail? && a.err == Transport && !a.expired && At(s.pc, a.t).Attempt? && At(s.pc, a.t).tries == 0
    ensures At(s'.pc, a.t).Attempt? ==> At(s'.pc, a.t).tries == 1
  {
  }

  // ---------------------------------------------------------------- where answers come from

  /** A leader's attempt on its flight ends with this action. */
  ghost predicate AttemptEnds(ss: seq<State>, acts: seq<Action>, j: nat, t: Tid, f: Flight, a: Action)
    requires |ss| == |acts| + 1
  {
    j < |acts| && acts[j] == a && a.t == t && At(ss[j].pc, t).Attempt? && At(ss[j].pc, t).flight == f
  }

  /** An attempt fails that is not to be retried: it is the second, or it is not the link's fault,
      or the caller's time is up. */
  ghost predicate FinalFailure(ss: seq<State>, acts: seq<Action>, j: nat, t: Tid, f: Flight, err: Error, expired: bool)
    requires |ss| == |acts| + 1
  {
    && AttemptEnds(ss, acts, j, t, f, Fail(t, err, expired))
    && (err != Transport || expired || At(ss[j].pc, t).tries == 1)
  }

  /** What a leader has in hand was brought by an attempt of its own: an address by a success, an
      error by a failure that was not to be retried. */
  ghost predicate Brought(ss: seq<State>, acts: seq<Action>, i: nat, t: Tid, f: Flight, answer: Answer)
    requires |ss| == |acts| + 1
  {
    && OneSet(answer)
    && (answer.ip.Some? ==> exists j: nat :: j < i && AttemptEnds(ss, acts, j, t, f, Succeed(t, answer.ip.value)))
    && (answer.err.Some? ==>
          exists j: nat, expired: bool :: j < i && FinalFailure(ss, acts, j, t, f, answer.err.value, expired))
  }

  /** The answer a leader carries at each point, once it has one. */
  function Carries(p: Pc): Option<(Flight, Answer)> {
    match p
    case Store(f, ip) => Some((f, Answer(Some(ip), None)))
    case Publish(f, answer) => Some((f, answer))
    case Signal(f, answer) => Some((f, answer))
    case Clean(f, answer) => Some((f, answer))
    case _ => None
  }

  /** An answer is taken up by the step that ends an attempt. */
  lemma CarriedStep(s: State, a: Action, s': State, t: Tid)
    requires RecordInv(s) && Next(s, a, s') && Carries(At(s'.pc, t)).Some?
    requires Carries(At(s.pc, t)) != Carries(At(s'.pc, t))
    ensures var (f, answer) := Carries(At(s'.pc, t)).value;
            && a.t == t && At(s.pc, t).Attempt? && At(s.pc, t).flight == f
            && if a.Succeed? then answer == Answer(Some(a.ip), None)
               else a.Fail? && answer == Answer(None, Some(a.err))
                    && (a.err != Transport || a.expired || At(s.pc, t).tries == 1)
  {
  }

  lemma BroughtEarlier(ss: seq<State>, acts: seq<Action>, i: nat, t: Tid, f: Flight, answer: Answer)
    requires |ss| == |acts| + 1 && Brought(ss, acts, i, t, f, answer)
    ensures Brought(ss, acts, i + 1, t, f, answer)
  {
    if answer.ip.Some? {
      var j: nat :| j < i && AttemptEnds(ss, acts, j, t, f, Succeed(t, answer.ip.value));
      assert j < i + 1 && AttemptEnds(ss, acts, j, t, f, Succeed(t, answer.ip.value));
    } else {
      var j: nat, expired: bool :| j < i && FinalFailure(ss, acts, j, t, f, answer.err.value, expired);
      assert j < i + 1 && FinalFailure(ss, acts, j, t, f, answer.err.value, expired);
    }
  }

  lemma BroughtNow(ss: seq<State>, acts: seq<Action>, j: nat, t: Tid)
    requires |ss| == |acts| + 1 && j < |acts| && RecordInv(ss[j]) && Next(ss[j], acts[j], ss[j + 1])
    requires Carries(At(ss[j + 1].pc, t)).Some? && Carries(At(ss[j].pc, t)) != Carries(At(ss[j + 1].pc, t))
    ensures Brought(ss, acts, j + 1, t, Carries(At(ss[j + 1].pc, t)).value.0, Carries(At(ss[j + 1].pc, t)).value.1)
  {
    CarriedStep(ss[j], acts[j], ss[j + 1], t);
    var (f, answer) := Carries(At(ss[j + 1].pc, t)).value;
    var a := acts[j];
    if a.Succeed? {
      assert AttemptEnds(ss, acts, j, t, f, Succeed(t, answer.ip.value));
    } else {
      assert FinalFailure(ss, acts, j, t, f, answer.err.value, a.expired);
    }
  }

  lemma {:induction false} CarriedIsBrought(ss: seq<State>, acts: seq<Action>, i: nat, t: Tid)
    requires Run(ss, acts) && i < |ss| && Carries(At(ss[i].pc, t)).Some?
    ensures Brought(ss, acts, i, t, Carries(At(ss[i].pc, t)).value.0, Carries(At(ss[i].pc, t)).value.1)
    decreases i
  {
    if i > 0 {
      var j := i - 1;
      if Carries(At(ss[j].pc, t)) == Carries(At(ss[i].pc, t)) {
        CarriedIsBrought(ss, acts, j, t);
        BroughtEarlier(ss, acts, j, t, Carries(At(ss[i].pc, t)).value.0, Carries(At(ss[i].pc, t)).value.1);
      } else {
        RunKeepsInv(ss, acts, j);
        BroughtNow(ss, acts, j, t);
      }
    }
  }

  lemma AnswerStep(s: State, a: Action, s': State, f: Flight)
    requires Inv(s) && Next(s, a, s') && f in s'.flights && s'.flights[f].answer.Some?
    ensures || (f in s.flights && s.flights[f].answer == s'.flights[f].answer
                && s.flights[f].leader == s'.flights[f].leader)
            || (a.t == s'.flights[f].leader && Carries(At(s.pc, a.t)) == Some((f, s'.flights[f].answer.value)))
  {
  }

  /** What a flight publishes, and so what everyone waiting for it is given, is what its leader's
      attempt brought. */
  lemma {:induction false} AnswersAreBrought(ss: seq<State>, acts: seq<Action>, i: nat, f: Flight)
    requires Run(ss, acts) && i < |ss| && f in ss[i].flights && ss[i].flights[f].answer.Some?
    ensures Brought(ss, acts, i, ss[i].flights[f].leader, f, ss[i].flights[f].answer.value)
    decreases i
  {
    if i > 0 {
      var j := i - 1;
      RunKeepsInv(ss, acts, j);
      AnswerStep(ss[j], acts[j], ss[i], f);
      var t, answer := ss[i].flights[f].leader, ss[i].flights[f].answer.value;
      if f in ss[j].flights && ss[j].flights[f].answer == Some(answer) && ss[j].flights[f].leader == t {
        AnswersAreBrought(ss, acts, j, f);
      } else {
        CarriedIsBrought(ss, acts, j, t);
      }
      BroughtEarlier(ss, acts, j, t, f, answer);
    }
  }
}
