/** The fixed-window rate limiter shared by the server action and the
    Mailchimp route: per identifier, at most five admitted calls in a window
    of sixty seconds that starts at the first call. */
module FixedWindow {

  /** `RATE_LIMIT_WINDOW`, in milliseconds. */
  const Window := 60 * 1000
  /** `RATE_LIMIT_MAX_REQUESTS`. */
  const MaxRequests := 5

  /** One identifier's entry: calls admitted so far and when its window began. */
  datatype Record = Record(count: int, timestamp: int)

  /** The window of `r` has elapsed at time `now`. */
  predicate Expired(r: Record, now: int)
  {
    now - r.timestamp > Window
  }

  /** Every stored count lies between 1 and the cap. */
  ghost predicate CountsInRange<K>(m: map<K, Record>)
  {
    forall k :: k in m ==> 1 <= m[k].count <= MaxRequests
  }

  /** What one call decides: whether it is refused, and the table afterwards. */
  datatype Decision<K> = Decision(limited: bool, records: map<K, Record>)

  /** One call of `isRateLimited` for `id` at time `now`, on table `m`. */
  function Admit<K>(m: map<K, Record>, id: K, now: int): (d: Decision<K>)
    // refused exactly when a live record has already reached the cap
    ensures d.limited <==> id in m && !Expired(m[id], now) && m[id].count >= MaxRequests
    // the queried identifier has a record afterwards, and no other entry moves
    ensures id in d.records && d.records.Keys == m.Keys + {id}
    // a refused call changes nothing
    ensures d.limited ==> d.records == m
    // a missing or expired record is replaced by a fresh window
    ensures id !in m || Expired(m[id], now) ==> d.records[id] == Record(1, now)
    // a live record below the cap gains one call and keeps its window
    ensures id in m && !Expired(m[id], now) && m[id].count < MaxRequests ==>
      d.records[id] == Record(m[id].count + 1, m[id].timestamp)
    ensures forall k :: k in m && k != id ==> d.records[k] == m[k]
    ensures CountsInRange(m) ==> CountsInRange(d.records)
  {
    if id !in m || Expired(m[id], now) then
      Decision(false, m[id := Record(1, now)])
    else if m[id].count >= MaxRequests then
      Decision(true, m)
    else
      Decision(false, m[id := Record(m[id].count + 1, m[id].timestamp)])
  }

  /** The table after a sweep at time `now`: the entries whose window has not
      elapsed, unchanged. */
  function Sweep<K>(m: map<K, Record>, now: int): (r: map<K, Record>)
    ensures forall k :: k in m && !Expired(m[k], now) ==> k in r
    ensures forall k :: k in r ==> k in m && !Expired(m[k], now) && r[k] == m[k]
  {
    map k | k in m && !Expired(m[k], now) :: m[k]
  }

  lemma SweepKeepsRange<K>(m: map<K, Record>, now: int)
    requires CountsInRange(m)
    ensures CountsInRange(Sweep(m, now))
  {
  }

  /** A sweep at the instant of a call is invisible to that call: sweeping
      before the call gives the same verdict and the same table as sweeping
      after it. */
  lemma SweepCommutes<K>(m: map<K, Record>, id: K, now: int)
    ensures Admit(Sweep(m, now), id, now).limited == Admit(m, id, now).limited
    ensures Admit(Sweep(m, now), id, now).records == Sweep(Admit(m, id, now).records, now)
  {
    var a := Admit(Sweep(m, now), id, now).records;
    var b := Sweep(Admit(m, id, now).records, now);
    assert a.Keys == b.Keys;
    assert forall k :: k in a ==> a[k] == b[k];
  }

  /** The verdicts of `n` consecutive calls for `id` at the same instant. */
  function Burst<K>(m: map<K, Record>, id: K, now: int, n: nat): (verdicts: seq<bool>)
    ensures |verdicts| == n
    decreases n
  {
    if n == 0 then []
    else
      var d := Admit(m, id, now);
      [d.limited] + Burst(d.records, id, now, n - 1)
  }

  /** From a live record holding `c` calls, the i-th further call at the same
      instant is refused exactly when `c + i` has reached the cap. */
  lemma {:induction false} BurstFrom<K>(m: map<K, Record>, id: K, now: int, n: nat)
    requires id in m && !Expired(m[id], now) && 1 <= m[id].count <= MaxRequests
    ensures forall i :: 0 <= i < n ==> Burst(m, id, now, n)[i] == (m[id].count + i >= MaxRequests)
    decreases n
  {
    if n > 0 {
      var d := Admit(m, id, now);
      var c := m[id].count;
      if c < MaxRequests {
        BurstFrom(d.records, id, now, n - 1);
        assert d.records[id].count == c + 1;
      } else {
        BurstFrom(m, id, now, n - 1);
      }
      var rest := Burst(d.records, id, now, n - 1);
      assert Burst(m, id, now, n) == [d.limited] + rest;
      forall i | 0 < i < n
        ensures Burst(m, id, now, n)[i] == (c + i >= MaxRequests)
      {
        assert Burst(m, id, now, n)[i] == rest[i - 1];
      }
    }
  }

  /** An identifier with no live record gets exactly five admitted calls at one
      instant: calls 1 to 5 are allowed and every later call is refused. */
  lemma FreshBurst<K>(m: map<K, Record>, id: K, now: int, n: nat)
    requires id !in m || Expired(m[id], now)
    ensures forall i :: 0 <= i < n ==> Burst(m, id, now, n)[i] == (i >= MaxRequests)
  {
    if n > 0 {
      var d := Admit(m, id, now);
      BurstFrom(d.records, id, now, n - 1);
      var rest := Burst(d.records, id, now, n - 1);
      assert Burst(m, id, now, n) == [false] + rest;
      forall i | 0 < i < n
        ensures Burst(m, id, now, n)[i] == (i >= MaxRequests)
      {
        assert Burst(m, id, now, n)[i] == rest[i - 1];
      }
    }
  }

  /** The scenario of five allowed calls, a refused sixth, and a fresh window
      for a call made more than sixty seconds later. */
  lemma SixthCallRefusedThenReset<K>(m: map<K, Record>, id: K, now: int, later: int)
    requires id !in m
    requires later > now + Window
    ensures Burst(m, id, now, 6) == [false, false, false, false, false, true]
    ensures var full := BurstTable(m, id, now, 6);
      Admit(full, id, later) == Decision(false, full[id := Record(1, later)])
  {
    FreshBurst(m, id, now, 6);
    BurstTableHasId(m, id, now, 6);
  }

  /** The table after the calls counted by `Burst`. */
  function BurstTable<K>(m: map<K, Record>, id: K, now: int, n: nat): map<K, Record>
    decreases n
  {
    if n == 0 then m else BurstTable(Admit(m, id, now).records, id, now, n - 1)
  }

  /** After at least one call at `now`, the identifier's window began no later
      than `now`. */
  lemma {:induction false} BurstTableHasId<K>(m: map<K, Record>, id: K, now: int, n: nat)
    requires n > 0
    requires id in m ==> m[id].timestamp <= now
    ensures id in BurstTable(m, id, now, n) && BurstTable(m, id, now, n)[id].timestamp <= now
    decreases n
  {
    var d := Admit(m, id, now);
    if n > 1 {
      BurstTableHasId(d.records, id, now, n - 1);
    }
  }

  /** Identifiers never share state: a burst of calls for `id` leaves every
      other identifier's verdict and record as it was. */
  lemma {:induction false} BurstIsolated<K>(m: map<K, Record>, id: K, other: K, now: int, n: nat, t: int)
    requires other != id
    ensures (other in BurstTable(m, id, now, n)) == (other in m)
    ensures other in m ==> BurstTable(m, id, now, n)[other] == m[other]
    ensures Admit(BurstTable(m, id, now, n), other, t).limited == Admit(m, other, t).limited
    decreases n
  {
    if n > 0 {
      BurstIsolated(Admit(m, id, now).records, id, other, now, n - 1, t);
    }
  }

  /** The per-identifier table that `isRateLimited` updates in place. */
  class RateLimiter<K(==)> {
    var records: map<K, Record>

    ghost predicate Valid()
      reads this
    {
      CountsInRange(records)
    }

    constructor ()
      ensures Valid() && records == map[]
    {
      records := map[];
    }

    /** `isRateLimited(identifier)`: true when the call is refused. */
    method IsRateLimited(id: K, now: int) returns (limited: bool)
      requires Valid()
      modifies this
      ensures Valid()
      ensures Decision(limited, records) == Admit(old(records), id, now)
    {
      if id !in records || now - records[id].timestamp > Window {
        records := records[id := Record(1, now)];
        return false;
      }
      if records[id].count >= MaxRequests {
        return true;
      }
      var record := records[id];
      records := records[id := record.(count := record.count + 1)];
      return false;
    }
  }
}
