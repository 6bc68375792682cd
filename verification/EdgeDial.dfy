/** The search over edge addresses that both clients make (tunnel/masque.go dial,
    tunnel/h2.go dial): start at the address that worked last and go round once. */
module EdgeDial {
  import opened Basics

  type Bundle = nat

  /** What one dialAddr attempt comes to, with the state of the caller's context after a
      failure and whether the failure says this host has no route for the address family. */
  datatype Attempt = Connected(bundle: Bundle) | Failed(cancelled: bool, unroutable: bool)

  /** Only the HTTP/3 client gives up at the first unroutable family. */
  datatype Transport = H3 | H2

  predicate Stops(transport: Transport, a: Attempt) {
    a.Connected? || a.cancelled || (transport == H3 && a.unroutable)
  }

  /** The i-th address tried, going round from the start. */
  function Rotation(start: nat, i: nat, n: nat): nat
    requires n > 0
  {
    (start + i) % n
  }

  /** The addresses of the first k turns. */
  function Turns(start: nat, k: nat, n: nat): seq<nat>
    requires n > 0
  {
    if k == 0 then [] else Turns(start, k - 1, n) + [Rotation(start, k - 1, n)]
  }

  lemma {:induction false} TurnsAt(start: nat, k: nat, n: nat)
    requires n > 0
    ensures |Turns(start, k, n)| == k
    ensures forall i :: 0 <= i < k ==> Turns(start, k, n)[i] == Rotation(start, i, n)
  {
    if k > 0 {
      TurnsAt(start, k - 1, n);
    }
  }

  /** One turn visits n different addresses. */
  lemma RotationIsInjective(start: nat, i: nat, j: nat, n: nat)
    requires start < n && i < n && j < n
    ensures Rotation(start, i, n) < n
    ensures Rotation(start, i, n) == Rotation(start, j, n) <==> i == j
  {
    Turn(start, i, n);
    Turn(start, j, n);
  }

  lemma Turn(start: nat, i: nat, n: nat)
    requires start < n && i < n
    ensures Rotation(start, i, n) == if start + i < n then start + i else start + i - n
  {
    var x := start + i;
    if x < n {
      QuotientIs(x, n, 0);
    } else {
      QuotientIs(x, n, 1);
    }
  }

  lemma QuotientIs(x: nat, n: nat, q: nat)
    requires n > 0 && q * n <= x < q * n + n
    ensures x % n == x - q * n
  {
    var r := x / n;
    assert x == r * n + x % n;
    if r < q {
      TimesIsMonotone(r + 1, q, n);
    } else if r > q {
      TimesIsMonotone(q + 1, r, n);
    }
  }

  lemma TimesIsMonotone(a: nat, b: nat, n: nat)
    requires a <= b
    ensures a * n <= b * n
  {
  }

  /** ... and so all of them: address a is reached at turn (a - start) mod n. */
  lemma RotationIsOnto(start: nat, a: nat, n: nat) returns (i: nat)
    requires start < n && a < n
    ensures i < n && Rotation(start, i, n) == a
  {
    i := if start <= a then a - start else a + n - start;
    Turn(start, i, n);
  }

  /** How far a dial gets: the first turn at which it stops, or n. */
  function StopTurn(transport: Transport, start: nat, n: nat, reach: nat -> Attempt, from: nat): nat
    requires start < n && from <= n
    decreases n - from
  {
    if from == n || Stops(transport, reach(Rotation(start, from, n))) then from
    else StopTurn(transport, start, n, reach, from + 1)
  }

  lemma {:induction false} StopTurnIsFirst(transport: Transport, start: nat, n: nat, reach: nat -> Attempt, from: nat)
    requires start < n && from <= n
    ensures var k := StopTurn(transport, start, n, reach, from);
            from <= k <= n
            && (k < n ==> Stops(transport, reach(Rotation(start, k, n))))
            && forall j :: from <= j < k ==> !Stops(transport, reach(Rotation(start, j, n)))
    decreases n - from
  {
    if from < n && !Stops(transport, reach(Rotation(start, from, n))) {
      StopTurnIsFirst(transport, start, n, reach, from + 1);
    }
  }

  /** The result of a dial: the connection if there is one, the addresses that failed in the
      order they were tried, and where the next dial starts. */
  datatype Dialed = Dialed(bundle: Option<Bundle>, failed: seq<nat>, next: nat)

  function DialOnce(transport: Transport, start: nat, n: nat, reach: nat -> Attempt): Dialed
    requires start < n
  {
    StopTurnIsFirst(transport, start, n, reach, 0);
    var k := StopTurn(transport, start, n, reach, 0);
    if k < n && reach(Rotation(start, k, n)).Connected? then
      Dialed(Some(reach(Rotation(start, k, n)).bundle), Turns(start, k, n), Rotation(start, k, n))
    else
      Dialed(None, Turns(start, if k < n then k + 1 else n, n), start)
  }

  /** The field the two clients share: where the last dial succeeded. */
  class Edges {
    const addrs: seq<string>
    var addrIdx: nat

    ghost predicate Valid()
      reads this
    {
      addrIdx < |addrs|
    }

    /** The constructors refuse an empty list and start at its head. */
    constructor (addrs: seq<string>)
      requires addrs != []
      ensures Valid() && this.addrs == addrs && addrIdx == 0
    {
      this.addrs, addrIdx := addrs, 0;
    }

    method Dial(transport: Transport, reach: nat -> Attempt) returns (r: Option<Bundle>, errs: seq<nat>)
      requires Valid()
      modifies this
      ensures Valid()
      ensures Dialed(r, errs, addrIdx) == DialOnce(transport, old(addrIdx), |addrs|, reach)
    {
      errs := [];
      var n := |addrs|;
      var i := 0;
      ghost var start := addrIdx;
      ghost var stop := StopTurn(transport, start, n, reach, 0);
      StopTurnIsFirst(transport, start, n, reach, 0);
      while i < n
        invariant 0 <= i <= n && addrIdx == start && i <= stop
        invariant errs == Turns(start, i, n)
      {
        var idx := (addrIdx + i) % n;
        RotationIsInjective(start, i, i, n);
        var attempt := reach(idx);
        if attempt.Connected? {
          addrIdx := idx;
          return Some(attempt.bundle), errs;
        }
        errs := errs + [idx];
        if attempt.cancelled { return None, errs; }
        if transport == H3 && attempt.unroutable { return None, errs; }
        i := i + 1;
      }
      return None, errs;
    }
  }

  // ---------------------------------------------------------------- what a dial finds

  /** A success is the first reachable address in cyclic order, with a non-stopping failure at
      every address before it; the next dial will start there. */
  lemma SuccessIsFirstReachable(transport: Transport, start: nat, n: nat, reach: nat -> Attempt)
    requires start < n && DialOnce(transport, start, n, reach).bundle.Some?
    ensures var d := DialOnce(transport, start, n, reach);
            var k := |d.failed|;
            k < n && d.next == Rotation(start, k, n) && d.next < n && reach(d.next) == Connected(d.bundle.value)
            && (forall j :: 0 <= j < k ==>
                  d.failed[j] == Rotation(start, j, n) && !Stops(transport, reach(d.failed[j])))
            && (forall j :: 0 <= j < k ==> d.failed[j] != d.next)
  {
    StopTurnIsFirst(transport, start, n, reach, 0);
    var k := StopTurn(transport, start, n, reach, 0);
    TurnsAt(start, k, n);
    forall j | 0 <= j < k ensures Rotation(start, j, n) != Rotation(start, k, n) {
      RotationIsInjective(start, j, k, n);
    }
    RotationIsInjective(start, k, k, n);
  }

  lemma TurnsAreDistinct(start: nat, k: nat, n: nat)
    requires start < n && k <= n
    ensures |Turns(start, k, n)| == k
    ensures forall i :: 0 <= i < k ==> Turns(start, k, n)[i] < n
    ensures forall i, j :: 0 <= i < j < k ==> Turns(start, k, n)[i] != Turns(start, k, n)[j]
  {
    TurnsAt(start, k, n);
    forall i, j | 0 <= i < k && 0 <= j < k
      ensures Turns(start, k, n)[i] < n && (i != j ==> Turns(start, k, n)[i] != Turns(start, k, n)[j])
    {
      RotationIsInjective(start, i, j, n);
    }
  }

  lemma TurnsAreExhaustive(start: nat, n: nat)
    requires start < n
    ensures forall a :: 0 <= a < n ==> a in Turns(start, n, n)
  {
    TurnsAt(start, n, n);
    forall a | 0 <= a < n ensures a in Turns(start, n, n) {
      var i := RotationIsOnto(start, a, n);
      assert Turns(start, n, n)[i] == a;
    }
  }

  /** A failure leaves the starting point alone and never tries an address twice; it tried all
      of them unless the last one tried told it to stop. */
  lemma FailureIsExhaustive(transport: Transport, start: nat, n: nat, reach: nat -> Attempt)
    requires start < n && DialOnce(transport, start, n, reach).bundle.None?
    ensures var d := DialOnce(transport, start, n, reach);
            d.next == start && 0 < |d.failed| <= n
            && (forall i, j :: 0 <= i < j < |d.failed| ==> d.failed[i] != d.failed[j])
            && (forall i :: 0 <= i < |d.failed| ==> d.failed[i] < n && reach(d.failed[i]).Failed?)
            && ((forall a :: 0 <= a < n ==> a in d.failed) || Stops(transport, reach(d.failed[|d.failed| - 1])))
  {
    StopTurnIsFirst(transport, start, n, reach, 0);
    var d := DialOnce(transport, start, n, reach);
    TurnsAt(start, |d.failed|, n);
    TurnsAt(start, StopTurn(transport, start, n, reach, 0), n);
    TurnsAt(start, StopTurn(transport, start, n, reach, 0) + 1, n);
    TurnsAreDistinct(start, |d.failed|, n);
    if StopTurn(transport, start, n, reach, 0) == n { TurnsAreExhaustive(start, n); }
  }

  /** The exact condition for finding a connection: some address is reachable and nothing
      stops the search before the first such address. */
  lemma FindsIff(transport: Transport, start: nat, n: nat, reach: nat -> Attempt)
    requires start < n
    ensures DialOnce(transport, start, n, reach).bundle.Some?
            <==> (exists k: nat :: k < n && reach(Rotation(start, k, n)).Connected?
                    && (forall j: nat :: j < k ==> !Stops(transport, reach(Rotation(start, j, n)))))
  {
    StopTurnIsFirst(transport, start, n, reach, 0);
    var s := StopTurn(transport, start, n, reach, 0);
    if k: nat :| k < n && reach(Rotation(start, k, n)).Connected?
                 && (forall j: nat :: j < k ==> !Stops(transport, reach(Rotation(start, j, n)))) {
      assert Stops(transport, reach(Rotation(start, k, n)));
      assert s == k;
    }
  }

  /** The j-th address that failed, and whether the search went on after it. */
  lemma FailedAt(transport: Transport, start: nat, n: nat, reach: nat -> Attempt, j: nat)
    requires start < n && j < |DialOnce(transport, start, n, reach).failed|
    ensures var d := DialOnce(transport, start, n, reach);
            var k := StopTurn(transport, start, n, reach, 0);
            && d.failed[j] == Rotation(start, j, n) && |d.failed| <= n && j <= k
            && (d.bundle.Some? ==> |d.failed| == k)
            && (d.bundle.None? && |d.failed| < n ==> |d.failed| == k + 1)
            && (j == k ==> d.bundle.None?) && reach(d.failed[j]).Failed?
            && (if j < k then !Stops(transport, reach(d.failed[j])) else Stops(transport, reach(d.failed[j])))
  {
    var d := DialOnce(transport, start, n, reach);
    var k := StopTurn(transport, start, n, reach, 0);
    StopTurnIsFirst(transport, start, n, reach, 0);
    TurnsAt(start, |d.failed|, n);
    LengthOfTurns(transport, start, n, reach);
    assert d.failed[j] == Rotation(start, j, n);
    if j < k { assert !Stops(transport, reach(Rotation(start, j, n))); }
  }

  lemma LengthOfTurns(transport: Transport, start: nat, n: nat, reach: nat -> Attempt)
    requires start < n
    ensures var d := DialOnce(transport, start, n, reach);
            var k := StopTurn(transport, start, n, reach, 0);
            && k <= n && d.failed == Turns(start, |d.failed|, n)
            && |d.failed| == if d.bundle.Some? || k == n then k else k + 1
  {
    StopTurnIsFirst(transport, start, n, reach, 0);
    var k := StopTurn(transport, start, n, reach, 0);
    TurnsAt(start, k, n);
    if k < n { TurnsAt(start, k + 1, n); }
  }

  /** Nothing is tried after an attempt during which the caller gave up, nor by the HTTP/3 client
      after one without a route; and a failed search that left addresses untried ended on one of
      these. The HTTP/2 client goes on past a missing route. */
  lemma WhatEndsASearch(transport: Transport, start: nat, n: nat, reach: nat -> Attempt, j: nat)
    requires start < n && j < |DialOnce(transport, start, n, reach).failed|
    ensures var d := DialOnce(transport, start, n, reach);
            var a := reach(d.failed[j]);
            && a.Failed?
            && (d.bundle.Some? || j + 1 < |d.failed| ==> !a.cancelled && (transport == H3 ==> !a.unroutable))
            && (d.bundle.None? && j + 1 == |d.failed| < n ==> a.cancelled || (transport == H3 && a.unroutable))
  {
    LengthOfTurns(transport, start, n, reach);
    FailedAt(transport, start, n, reach, j);
  }

  /** When no failure cancels and the candidates share one family, so that a missing route
      makes all of them unreachable, the search is complete for both clients. */
  lemma CompleteOnOneFamily(transport: Transport, start: nat, n: nat, reach: nat -> Attempt)
    requires start < n
    requires forall a :: 0 <= a < n ==> reach(a).Connected? || !reach(a).cancelled
    requires transport == H3 ==> (exists a :: 0 <= a < n && reach(a).Failed? && reach(a).unroutable)
                                 ==> (forall a :: 0 <= a < n ==> reach(a).Failed?)
    ensures DialOnce(transport, start, n, reach).bundle.Some? <==> exists a :: 0 <= a < n && reach(a).Connected?
  {
    StopTurnIsFirst(transport, start, n, reach, 0);
    var s := StopTurn(transport, start, n, reach, 0);
    if s < n { RotationIsInjective(start, s, s, n); }
    if a :| 0 <= a < n && reach(a).Connected? {
      var k := RotationIsOnto(start, a, n);
      assert s <= k;
    }
  }

  /** With candidates of two families it is not: an unroutable first address hides a reachable
      second one from the HTTP/3 client, though not from the HTTP/2 client. */
  lemma MixedFamiliesMissAReachableAddress()
    ensures exists reach: nat -> Attempt ::
              reach(1).Connected? && DialOnce(H3, 0, 2, reach).bundle.None? && DialOnce(H2, 0, 2, reach).bundle.Some?
  {
    var reach := (a: nat) => if a == 1 then Connected(7) else Failed(false, true);
    assert StopTurn(H3, 0, 2, reach, 0) == 0;
    assert StopTurn(H2, 0, 2, reach, 0) == StopTurn(H2, 0, 2, reach, 1) == 1;
    assert DialOnce(H3, 0, 2, reach).bundle.None? && DialOnce(H2, 0, 2, reach).bundle.Some?;
  }

  // ---------------------------------------------------------------- series of dials

  /** Where a client stands after a series of dials. */
  function Series(transport: Transport, n: nat, dials: seq<nat -> Attempt>): (r: nat)
    requires n > 0
    ensures r < n
  {
    if dials == [] then 0
    else
      var start := Series(transport, n, dials[..|dials| - 1]);
      var d := DialOnce(transport, start, n, dials[|dials| - 1]);
      DialStaysInRange(transport, start, n, dials[|dials| - 1]);
      d.next
  }

  lemma DialStaysInRange(transport: Transport, start: nat, n: nat, reach: nat -> Attempt)
    requires start < n
    ensures DialOnce(transport, start, n, reach).next < n
  {
    if DialOnce(transport, start, n, reach).bundle.Some? {
      SuccessIsFirstReachable(transport, start, n, reach);
    }
  }

  /** The i-th dial of a series succeeded. */
  ghost predicate Won(transport: Transport, n: nat, dials: seq<nat -> Attempt>, i: nat)
    requires n > 0
  {
    i < |dials| && DialOnce(transport, Series(transport, n, dials[..i]), n, dials[i]).bundle.Some?
  }

  /** The starting point that the i-th dial leaves behind. */
  function LeftBy(transport: Transport, n: nat, dials: seq<nat -> Attempt>, i: nat): nat
    requires n > 0 && i < |dials|
  {
    DialOnce(transport, Series(transport, n, dials[..i]), n, dials[i]).next
  }

  lemma WonBefore(transport: Transport, n: nat, dials: seq<nat -> Attempt>, i: nat, upTo: nat)
    requires n > 0 && i < upTo <= |dials|
    ensures Won(transport, n, dials[..upTo], i) == Won(transport, n, dials, i)
    ensures LeftBy(transport, n, dials[..upTo], i) == LeftBy(transport, n, dials, i)
  {
    assert dials[..upTo][..i] == dials[..i];
  }

  lemma FailureMovesNothing(transport: Transport, n: nat, dials: seq<nat -> Attempt>)
    requires n > 0 && dials != [] && !Won(transport, n, dials, |dials| - 1)
    ensures Series(transport, n, dials) == Series(transport, n, dials[..|dials| - 1])
  {
    FailureIsExhaustive(transport, Series(transport, n, dials[..|dials| - 1]), n, dials[|dials| - 1]);
  }

  /** Where the series stands is what its last success, `win`, left, or the head of the list
      when nothing has succeeded. */
  ghost predicate Sticks(transport: Transport, n: nat, dials: seq<nat -> Attempt>, win: Option<nat>)
    requires n > 0
  {
    match win
    case None => Series(transport, n, dials) == 0 && forall j: nat :: !Won(transport, n, dials, j)
    case Some(i) =>
      Won(transport, n, dials, i) && Series(transport, n, dials) == LeftBy(transport, n, dials, i)
      && forall j: nat :: i < j ==> !Won(transport, n, dials, j)
  }

  lemma StillSticks(transport: Transport, n: nat, dials: seq<nat -> Attempt>, win: Option<nat>)
    requires n > 0 && dials != [] && !Won(transport, n, dials, |dials| - 1)
    requires Sticks(transport, n, dials[..|dials| - 1], win)
    ensures Sticks(transport, n, dials, win)
  {
    var last := |dials| - 1;
    FailureMovesNothing(transport, n, dials);
    if win.Some? { WonBefore(transport, n, dials, win.value, last); }
    forall j: nat | win.Some? ==> win.value < j ensures !Won(transport, n, dials, j) {
      if j < last { WonBefore(transport, n, dials, j, last); }
    }
  }

  /** The last dial to have succeeded decides where the next one starts: the failures since have
      not moved it. */
  lemma {:induction false} SeriesIsSticky(transport: Transport, n: nat, dials: seq<nat -> Attempt>)
    returns (win: Option<nat>)
    requires n > 0
    ensures Sticks(transport, n, dials, win)
    decreases |dials|
  {
    if dials == [] { return None; }
    var last := |dials| - 1;
    if Won(transport, n, dials, last) { return Some(last); }
    win := SeriesIsSticky(transport, n, dials[..last]);
    StillSticks(transport, n, dials, win);
  }
}
