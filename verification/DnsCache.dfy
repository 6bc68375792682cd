/** The resolution cache of the HTTP/3 client (tunnel/masque.go cacheResolution and the hit
    path of resolveDNS). Times are nanoseconds on one monotone clock. */
module DnsCache {
  import opened Basics
  import opened Addresses

  type Host = string

  const SECOND := 1_000_000_000
  const MIN_TTL := 5 * SECOND
  const MAX_TTL := 300 * SECOND
  const SWEEP_AT := 1024
  const MAX_ENTRIES := 8192

  datatype Entry = Entry(ip: Ip, expiresAt: int)

  // ---------------------------------------------------------------- the operations

  function Hit(entries: map<Host, Entry>, host: Host, now: int): Option<Ip> {
    if host in entries && now < entries[host].expiresAt then Some(entries[host].ip) else None
  }

  /** What a sweep at a given moment leaves: exactly the live entries. */
  function Swept(entries: map<Host, Entry>, now: int): map<Host, Entry> {
    map h | h in entries && now < entries[h].expiresAt :: entries[h]
  }

  function MadeRoom(entries: map<Host, Entry>, now: int): map<Host, Entry> {
    if |entries| < SWEEP_AT then entries
    else if |Swept(entries, now)| >= MAX_ENTRIES then map[]
    else Swept(entries, now)
  }

  /** One call of cacheResolution, with its two readings of the clock: one for the sweep and a
      later one for the expiry. */
  datatype Store = Store(host: Host, ip: Ip, ttl: int, sweepNow: int, storeNow: int)

  function Stored(entries: map<Host, Entry>, s: Store): map<Host, Entry> {
    MadeRoom(entries, s.sweepNow)[s.host := Entry(s.ip, s.storeNow + s.ttl)]
  }

  class Cache {
    var entries: map<Host, Entry>

    constructor ()
      ensures entries == map[]
    {
      entries := map[];
    }

    method Lookup(host: Host, now: int) returns (r: Option<Ip>)
      ensures r == Hit(entries, host, now)
    {
      if host in entries {
        var entry := entries[host];
        if now < entry.expiresAt { return Some(entry.ip); }
      }
      return None;
    }

    /** The deletion loop; map iteration visits the names in any order. */
    method Sweep(now: int)
      modifies this
      ensures entries == Swept(old(entries), now)
    {
      var todo := entries.Keys;
      while todo != {}
        invariant todo <= entries.Keys <= old(entries).Keys
        invariant forall h :: h in entries ==> entries[h] == old(entries)[h]
        invariant forall h :: h in old(entries) && h !in todo
                              ==> (h in entries <==> now < old(entries)[h].expiresAt)
        decreases todo
      {
        var name :| name in todo;
        if !(now < entries[name].expiresAt) {
          entries := entries - {name};
        }
        todo := todo - {name};
      }
    }

    method CacheResolution(s: Store)
      modifies this
      ensures entries == Stored(old(entries), s)
    {
      if |entries| >= SWEEP_AT {
        Sweep(s.sweepNow);
        if |entries| >= MAX_ENTRIES {
          entries := map[];
        }
      }
      entries := entries[s.host := Entry(s.ip, s.storeNow + s.ttl)];
    }
  }

  // ---------------------------------------------------------------- whole runs

  /** Lookups change nothing, so a run is a sequence of stores. */
  function Contents(log: seq<Store>): map<Host, Entry> {
    if log == [] then map[]
    else
      var s := log[|log| - 1];
      Stored(Contents(log[..|log| - 1]), s)
  }

  /** The lock serialises stores, the clock never goes back, and TTLs are clamped. */
  ghost predicate Ordered(log: seq<Store>) {
    && (forall i :: 0 <= i < |log| ==> log[i].sweepNow <= log[i].storeNow && MIN_TTL <= log[i].ttl <= MAX_TTL)
    && (forall i, j :: 0 <= i < j < |log| ==> log[i].storeNow <= log[j].sweepNow)
  }

  /** The latest store for a host. */
  function LastStore(log: seq<Store>, host: Host): Option<nat> {
    if log == [] then None
    else if log[|log| - 1].host == host then Some(|log| - 1)
    else LastStore(log[..|log| - 1], host)
  }

  lemma {:induction false} LastStoreIsLast(log: seq<Store>, host: Host)
    ensures var i := LastStore(log, host);
            && (i.Some? ==> i.value < |log| && log[i.value].host == host)
            && forall j :: (if i.Some? then i.value + 1 else 0) <= j < |log| ==> log[j].host != host
    decreases |log|
  {
    if log != [] && log[|log| - 1].host != host {
      LastStoreIsLast(log[..|log| - 1], host);
    }
  }

  /** The j-th store found so many live entries that it emptied the cache. */
  predicate ClearsAt(log: seq<Store>, j: nat)
    requires j < |log|
  {
    var before := Contents(log[..j]);
    |before| >= SWEEP_AT && |Swept(before, log[j].sweepNow)| >= MAX_ENTRIES
  }

  ghost predicate ClearedSince(log: seq<Store>, i: nat) {
    exists j :: i < j < |log| && ClearsAt(log, j)
  }

  lemma {:induction false} EntryIsLastStore(log: seq<Store>, host: Host)
    requires host in Contents(log)
    ensures LastStore(log, host).Some? && LastStore(log, host).value < |log|
    ensures var s := log[LastStore(log, host).value];
            Contents(log)[host] == Entry(s.ip, s.storeNow + s.ttl)
    decreases |log|
  {
    if log[|log| - 1].host != host {
      EntryIsLastStore(log[..|log| - 1], host);
    }
  }

  /** A stored entry that is still live has neither been swept out nor overwritten: only
      emptying the whole cache can have removed it. */
  lemma {:induction false} LiveEntriesStay(log: seq<Store>, host: Host, now: int)
    requires Ordered(log) && (log != [] ==> log[|log| - 1].storeNow <= now)
    requires LastStore(log, host).Some? && LastStore(log, host).value < |log|
    requires now < log[LastStore(log, host).value].storeNow + log[LastStore(log, host).value].ttl
    ensures host in Contents(log) <==> !ClearedSince(log, LastStore(log, host).value)
    decreases |log|
  {
    var last := |log| - 1;
    var before := log[..last];
    var i := LastStore(log, host).value;
    LastStoreIsLast(log, host);
    if i < last {
      LiveEntriesStay(before, host, now);
      if host in Contents(before) { EntryIsLastStore(before, host); }
      EntryStaysOrClears(log, host, now);
      assert forall j :: i < j < last ==> before[..j] == log[..j];
      assert forall j :: i < j < last ==> ClearsAt(before, j) == ClearsAt(log, j);
      assert ClearedSince(log, i) <==> ClearedSince(before, i) || ClearsAt(log, last);
    }
  }

  lemma EntryStaysOrClears(log: seq<Store>, host: Host, now: int)
    requires log != [] && log[|log| - 1].host != host && log[|log| - 1].sweepNow <= now
    requires host in Contents(log[..|log| - 1]) ==> now < Contents(log[..|log| - 1])[host].expiresAt
    ensures host in Contents(log) <==> host in Contents(log[..|log| - 1]) && !ClearsAt(log, |log| - 1)
  {
  }

  /** Soundness and completeness of the cache over every run: a lookup hits exactly when the
      host's most recent store is inside its TTL and the cache has not been emptied since,
      and the hit returns what that store stored. */
  lemma HitsExactly(log: seq<Store>, host: Host, now: int)
    requires Ordered(log) && (log != [] ==> log[|log| - 1].storeNow <= now)
    ensures LastStore(log, host).Some? ==> LastStore(log, host).value < |log|
    ensures Hit(Contents(log), host, now)
            == match LastStore(log, host)
               case None => None
               case Some(i) =>
                 if now < log[i].storeNow + log[i].ttl && !ClearedSince(log, i) then Some(log[i].ip) else None
  {
    LastStoreIsLast(log, host);
    if host in Contents(log) {
      EntryIsLastStore(log, host);
    }
    var i := LastStore(log, host);
    if i.Some? && now < log[i.value].storeNow + log[i.value].ttl {
      LiveEntriesStay(log, host, now);
    }
  }

  // ---------------------------------------------------------------- size

  /** Hosts stored within the longest TTL before a moment. */
  function StoredSince(log: seq<Store>, cutoff: int): set<Host> {
    if log == [] then {}
    else
      var last := |log| - 1;
      var before := StoredSince(log[..last], cutoff);
      if log[last].storeNow > cutoff then before + {log[last].host} else before
  }

  lemma {:induction false} StoredSinceContains(log: seq<Store>, cutoff: int, i: nat)
    requires i < |log| && log[i].storeNow > cutoff
    ensures log[i].host in StoredSince(log, cutoff)
    decreases |log|
  {
    if i < |log| - 1 {
      StoredSinceContains(log[..|log| - 1], cutoff, i);
    }
  }

  predicate SizeWithin(entries: map<Host, Entry>, recent: nat) {
    |entries| <= MAX_ENTRIES && (|entries| <= SWEEP_AT || |entries| <= 1 + recent)
  }

  /** After any run and one more store the cache holds at most 8192 entries, and at most the
      larger of 1024 and one plus the hosts stored in the five minutes before that store's sweep. */
  lemma SizeIsBounded(log: seq<Store>, s: Store)
    requires Ordered(log)
    ensures |Contents(log + [s])| <= 8192
    ensures |Contents(log + [s])| <= 1024
            || |Contents(log + [s])| <= 1 + |StoredSince(log, s.sweepNow - 300_000_000_000)|
  {
    OneMoreStore(log, s);
    StoreKeepsSize(Contents(log), s, log);
  }

  lemma OneMoreStore(log: seq<Store>, s: Store)
    ensures Contents(log + [s]) == Stored(Contents(log), s)
  {
    assert (log + [s])[..|log|] == log;
  }

  lemma StoreKeepsSize(entries: map<Host, Entry>, s: Store, log: seq<Store>)
    requires Ordered(log) && entries == Contents(log)
    ensures SizeWithin(Stored(entries, s), |StoredSince(log, s.sweepNow - MAX_TTL)|)
  {
    RoomIsBounded(entries, s.sweepNow, log);
    OneMoreEntry(MadeRoom(entries, s.sweepNow), s.host, Entry(s.ip, s.storeNow + s.ttl));
  }

  lemma OneMoreEntry(entries: map<Host, Entry>, host: Host, e: Entry)
    ensures |entries[host := e]| <= |entries| + 1
  {
    var after := entries[host := e];
    assert after.Keys == entries.Keys + {host};
    OneMoreKey(entries.Keys, host);
    assert |after| == |after.Keys| && |entries| == |entries.Keys|;
  }

  lemma OneMoreKey(keys: set<Host>, h: Host)
    ensures |keys + {h}| <= |keys| + 1
  {
    if h in keys {
      assert keys + {h} == keys;
    }
  }

  lemma RoomIsBounded(entries: map<Host, Entry>, now: int, log: seq<Store>)
    requires Ordered(log) && entries == Contents(log)
    ensures |MadeRoom(entries, now)| < MAX_ENTRIES
    ensures |MadeRoom(entries, now)| < SWEEP_AT || |MadeRoom(entries, now)| <= |StoredSince(log, now - MAX_TTL)|
  {
    if |entries| >= SWEEP_AT {
      LiveHostsAreRecent(log, now);
      var room := MadeRoom(entries, now);
      assert room.Keys <= Swept(entries, now).Keys;
      SubsetIsSmaller(room.Keys, StoredSince(log, now - MAX_TTL));
      assert |room| == |room.Keys|;
    }
  }

  lemma LiveHostsAreRecent(log: seq<Store>, now: int)
    requires Ordered(log)
    ensures Swept(Contents(log), now).Keys <= StoredSince(log, now - MAX_TTL)
  {
    forall h | h in Swept(Contents(log), now) ensures h in StoredSince(log, now - MAX_TTL) {
      EntryIsLastStore(log, h);
      LastStoreIsLast(log, h);
      var i := LastStore(log, h).value;
      StoredSinceContains(log, now - MAX_TTL, i);
    }
  }
}
