/** From DNS answers to one address (tunnel/masque.go parseDoHAnswer and the collecting loop
    of dnsQuery). */
module DnsAnswers {
  import opened Basics
  import opened Addresses
  import opened DnsCache

  /** A resource record as far as it matters; its TTL is an unsigned 32-bit number of seconds. */
  datatype Record = A(address: Ip, ttl: int) | AAAA(address: Ip, ttl: int) | Other(ttl: int)

  datatype Question = AskA | AskAAAA

  predicate ValidRecord(r: Record) {
    0 <= r.ttl < 0x1_0000_0000
    && (r.A? ==> |r.address| == 4)
    && (r.AAAA? ==> |r.address| == 16)
  }

  predicate Answers(r: Record, q: Question) {
    if q == AskA then r.A? else r.AAAA?
  }

  /** Converting seconds to nanoseconds does not overflow a signed 64-bit duration. */
  lemma TtlFitsDuration(r: Record)
    requires ValidRecord(r)
    ensures 0 <= r.ttl * SECOND < 0x8000_0000_0000_0000
  {
  }

  /** The first record of the asked type, with its TTL brought into the cache's bounds. */
  method ParseAnswer(records: seq<Record>, q: Question) returns (r: Option<(Ip, int)>)
    requires forall x :: x in records ==> ValidRecord(x)
    ensures r.None? <==> forall x :: x in records ==> !Answers(x, q)
    ensures r.Some? ==> 5_000_000_000 <= MIN_TTL <= r.value.1 <= MAX_TTL <= 300_000_000_000
    ensures r.Some? ==> |r.value.0| == if q == AskA then 4 else 16
    ensures r.Some? ==> exists i :: 0 <= i < |records| && Answers(records[i], q) && records[i].address == r.value.0
                                    && (forall j :: 0 <= j < i ==> !Answers(records[j], q))
                                    && (MIN_TTL <= records[i].ttl * SECOND <= MAX_TTL ==>
                                        r.value.1 == records[i].ttl * SECOND)
                                    && (records[i].ttl * SECOND < MIN_TTL ==> r.value.1 == MIN_TTL)
                                    && (records[i].ttl * SECOND > MAX_TTL ==> r.value.1 == MAX_TTL)
  {
    for i := 0 to |records|
      invariant forall j :: 0 <= j < i ==> !Answers(records[j], q)
    {
      if Answers(records[i], q) {
        assert records[i] in records;
        var ttl := records[i].ttl * SECOND;
        if ttl < MIN_TTL { ttl := MIN_TTL; }
        if ttl > MAX_TTL { ttl := MAX_TTL; }
        return Some((records[i].address, ttl));
      }
    }
    return None;
  }

  // ---------------------------------------------------------------- two questions, one result

  /** How one of the two concurrent questions ends. */
  datatype Reply = Answered(ip: Ip, ttl: int) | DnsError | TransportError

  /** The lookup's result; a failure says whether the link was at fault. */
  datatype Lookup = Resolved(ip: Ip, ttl: int) | NotResolved(transport: bool)

  function Collected(first: Reply, second: Reply): Lookup {
    if first.Answered? && To4(first.ip).Some? then Resolved(first.ip, first.ttl)
    else if second.Answered? && To4(second.ip).Some? then Resolved(second.ip, second.ttl)
    else if second.Answered? then Resolved(second.ip, second.ttl)
    else if first.Answered? then Resolved(first.ip, first.ttl)
    else NotResolved(first.TransportError? || second.TransportError?)
  }

  /** The collecting loop, over the replies in order of arrival. The addresses it is given are
      never empty, so the non-empty v6 marks an answer. */
  method Collect(arrivals: seq<Reply>) returns (r: Lookup)
    requires |arrivals| == 2
    requires forall x :: x in arrivals && x.Answered? ==> x.ip != []
    ensures r == Collected(arrivals[0], arrivals[1])
  {
    var v6, v6ttl := [], 0;
    var transportErr: Option<Reply> := None;
    for i := 0 to 2
      invariant i == 1 ==> (v6 != [] <==> arrivals[0].Answered?)
      invariant i >= 1 && arrivals[0].Answered? ==> To4(arrivals[0].ip).None?
      invariant i == 1 && arrivals[0].Answered? ==> (v6, v6ttl) == (arrivals[0].ip, arrivals[0].ttl)
      invariant i == 2 && arrivals[1].Answered? ==> To4(arrivals[1].ip).None?
      invariant i == 2 && arrivals[1].Answered? ==> (v6, v6ttl) == (arrivals[1].ip, arrivals[1].ttl)
      invariant i == 2 && !arrivals[1].Answered? && arrivals[0].Answered?
                ==> (v6, v6ttl) == (arrivals[0].ip, arrivals[0].ttl)
      invariant i == 2 && !arrivals[1].Answered? && !arrivals[0].Answered? ==> v6 == []
      invariant i == 0 ==> transportErr == None && v6 == []
      invariant transportErr.Some? <==> exists j :: 0 <= j < i && !arrivals[j].Answered?
      invariant transportErr == Some(TransportError) <==> exists j :: 0 <= j < i && arrivals[j].TransportError?
    {
      var got := arrivals[i];
      assert got in arrivals;
      if !got.Answered? {
        if transportErr.None? || got.TransportError? { transportErr := Some(got); }
      } else if To4(got.ip).Some? {
        return Resolved(got.ip, got.ttl);
      } else {
        v6, v6ttl := got.ip, got.ttl;
      }
    }
    if v6 != [] { return Resolved(v6, v6ttl); }
    if transportErr.Some? { return NotResolved(transportErr.value.TransportError?); }
    return NotResolved(false);
  }

  /** Which question answers first does not matter, with one exception: an IPv4-mapped AAAA
      answer counts as IPv4, so it and the A answer race. */
  lemma ArrivalOrderMatters(a: Reply, aaaa: Reply)
    requires a.Answered? ==> |a.ip| == 4
    requires aaaa.Answered? ==> |aaaa.ip| == 16
    ensures Collected(a, aaaa) == Collected(aaaa, a)
            <==> !(a.Answered? && aaaa.Answered? && Mapped(aaaa.ip))
    ensures a.Answered? && !(aaaa.Answered? && Mapped(aaaa.ip)) ==> Collected(aaaa, a) == Resolved(a.ip, a.ttl)
  {
  }

  /** What a lookup comes to, in either order of arrival: without an A answer the AAAA answer is
      taken; without either there is none, and the link is to blame if either question failed on
      it. */
  lemma WhatIsCollected(a: Reply, aaaa: Reply)
    requires a.Answered? ==> |a.ip| == 4
    requires aaaa.Answered? ==> |aaaa.ip| == 16
    ensures a.Answered? && !aaaa.Answered? ==>
              Collected(a, aaaa) == Resolved(a.ip, a.ttl) && Collected(aaaa, a) == Resolved(a.ip, a.ttl)
    ensures !a.Answered? && aaaa.Answered? ==>
              Collected(a, aaaa) == Resolved(aaaa.ip, aaaa.ttl) && Collected(aaaa, a) == Resolved(aaaa.ip, aaaa.ttl)
    ensures !a.Answered? && !aaaa.Answered? ==>
              Collected(a, aaaa) == NotResolved(a.TransportError? || aaaa.TransportError?) == Collected(aaaa, a)
    ensures a.Answered? && aaaa.Answered? ==>
              Collected(a, aaaa) == Resolved(a.ip, a.ttl)
              && Collected(aaaa, a) == if Mapped(aaaa.ip) then Resolved(aaaa.ip, aaaa.ttl) else Resolved(a.ip, a.ttl)
  {
  }
}
