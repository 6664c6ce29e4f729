/**
 The session registry `sender_map` (main.py:23): a map from a chat id to the
 sender to reply to and the time of the last inbound message. The registry is
 an immutable value here; every operation returns the new registry. Time is an
 integer parameter and is not assumed to be monotonic.
 */
module Sessions {
  import opened Wrappers

  /** Idle time after which the sweep evicts a session (`SESSION_TIMEOUT`, main.py:24). */
  const SessionTimeout: int := 300

  /** The record `{"sender_id": ..., "last_active": ...}` stored per chat id. */
  datatype Session = Session(senderId: string, lastActive: int)

  type Registry = map<string, Session>

  /** A session is stale when its idle time is STRICTLY greater than the timeout (main.py:34). */
  predicate Expired(s: Session, now: int) {
    now - s.lastActive > SessionTimeout
  }

  /** `sender_map[chat_id] = {...}` (main.py:94-97): insert or overwrite one key. */
  function Upsert(m: Registry, chatId: string, senderId: string, now: int): (r: Registry)
    ensures r.Keys == m.Keys + {chatId}
    ensures r[chatId] == Session(senderId, now)
    ensures forall k :: k in m && k != chatId ==> r[k] == m[k]
  {
    m[chatId := Session(senderId, now)]
  }

  /** `sender_map.get(chat_id)` (main.py:156): a pure read that misses on an unknown key. */
  function Lookup(m: Registry, chatId: string): (r: Option<Session>)
    ensures r.None? <==> chatId !in m
    ensures r.Some? ==> r.value == m[chatId]
  {
    if chatId in m then Some(m[chatId]) else None
  }

  /** The registry left by one pass of `cleanup_sessions` at time `now` (main.py:31-38). */
  function Sweep(m: Registry, now: int): (r: Registry)
    ensures forall k :: k in r <==> k in m && !Expired(m[k], now)
    ensures forall k :: k in r ==> r[k] == m[k]
  {
    map k | k in m && !Expired(m[k], now) :: m[k]
  }

  /** True iff every entry of `m` is present in `m'` with the same value. */
  ghost predicate SubMap(m: Registry, m': Registry) {
    forall k :: k in m ==> k in m' && m'[k] == m[k]
  }

  /**
   One pass of `cleanup_sessions` as the source runs it: first scan every entry
   and collect the expired chat ids, then pop each of them. Nothing can interleave
   between the scan and the pops, so the pass is one atomic step. Returns the
   new registry and the evicted chat ids (the ones the source logs).
   */
  method CleanupPass(m: Registry, now: int) returns (r: Registry, evicted: set<string>)
    ensures r == Sweep(m, now)
    ensures forall k :: k in evicted <==> k in m && Expired(m[k], now)
    ensures evicted !! r.Keys && evicted + r.Keys == m.Keys
  {
    // scan: the `expired` list comprehension
    var expired: set<string> := {};
    var unseen := m.Keys;
    while unseen != {}
      invariant unseen <= m.Keys
      invariant forall k :: k in expired <==> k in m && k !in unseen && Expired(m[k], now)
      decreases unseen
    {
      var k :| k in unseen;
      if now - m[k].lastActive > SessionTimeout {
        expired := expired + {k};
      }
      unseen := unseen - {k};
    }
    // pop every collected key; `pop(chat_id, None)` tolerates a missing key
    r := m;
    var pending := expired;
    while pending != {}
      invariant pending <= expired
      invariant r == m - (expired - pending)
      decreases pending
    {
      var k :| k in pending;
      r := r - {k};
      pending := pending - {k};
    }
    evicted := expired;
  }

  /** Last write wins: a second upsert of the same chat id replaces the first. */
  lemma UpsertLastWriteWins(m: Registry, chatId: string, s1: string, t1: int, s2: string, t2: int)
    ensures Upsert(Upsert(m, chatId, s1, t1), chatId, s2, t2) == Upsert(m, chatId, s2, t2)
    ensures Lookup(Upsert(Upsert(m, chatId, s1, t1), chatId, s2, t2), chatId) == Some(Session(s2, t2))
  {
  }

  /** Upserts of distinct chat ids commute: neither overwrites the other. */
  lemma UpsertDistinctCommute(m: Registry, c1: string, s1: string, t1: int, c2: string, s2: string, t2: int)
    requires c1 != c2
    ensures Upsert(Upsert(m, c1, s1, t1), c2, s2, t2) == Upsert(Upsert(m, c2, s2, t2), c1, s1, t1)
    ensures Lookup(Upsert(Upsert(m, c1, s1, t1), c2, s2, t2), c1) == Some(Session(s1, t1))
  {
  }

  /** The sweep only removes: what it keeps is a sub-map of its input. */
  lemma {:induction false} SweepIsSubMap(m: Registry, now: int)
    ensures SubMap(Sweep(m, now), m)
    ensures |Sweep(m, now)| <= |m|
  {
    assert Sweep(m, now).Keys <= m.Keys;
    SubsetCard(Sweep(m, now).Keys, m.Keys);
  }

  lemma {:induction false} SubsetCard(a: set<string>, b: set<string>)
    requires a <= b
    ensures |a| <= |b|
  {
    assert b == a + (b - a);
  }

  /** A second sweep with the same `now` removes nothing further. */
  lemma SweepIdempotent(m: Registry, now: int)
    ensures Sweep(Sweep(m, now), now) == Sweep(m, now)
  {
  }

  /** The timeout comparison is strict: an entry idle exactly the timeout survives; one idle a second longer does not. */
  lemma SweepBoundary(m: Registry, chatId: string, senderId: string, t: int)
    ensures Lookup(Sweep(Upsert(m, chatId, senderId, t), t + SessionTimeout), chatId) == Some(Session(senderId, t))
    ensures Lookup(Sweep(Upsert(m, chatId, senderId, t), t + SessionTimeout + 1), chatId) == None
  {
  }

  /** A sweep never touches a session whose clock reading lies ahead of `now`. */
  lemma SweepKeepsFutureSessions(m: Registry, now: int, chatId: string)
    requires chatId in m && m[chatId].lastActive >= now
    ensures Lookup(Sweep(m, now), chatId) == Some(m[chatId])
  {
  }
}
