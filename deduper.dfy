/**
 * The callback's duplicate suppressor: a map from dedup key to expiry
 * instant. Its behaviour is fixed by the repository's tests: the first
 * SeenOrMark of a key answers false and marks it, later calls answer true
 * until the recorded expiry has passed, the empty key and a nil Deduper
 * always answer false, a TTL of 0 means ten minutes, and pruneExpired drops
 * the entries whose expiry has passed.
 */
module Dedup {
  import opened Clock

  const DefaultTtl: int := 10 * Minute

  /** An entry has expired once `now` is after its expiry instant. */
  predicate Expired(expiry: int, now: int) {
    After(now, expiry)
  }

  /** The answer of one SeenOrMark call and the map it leaves behind. */
  datatype Mark = Mark(seen: bool, data: map<string, int>)

  /** One SeenOrMark call on the map `data`. */
  function SeenOrMarkStep(data: map<string, int>, ttl: int, key: string, now: int): (m: Mark)
    ensures m.seen ==> key != "" && key in data && m.data == data
    ensures key == "" ==> m == Mark(false, data)
    ensures key != "" && (key !in data || Expired(data[key], now)) ==> m == Mark(false, data[key := now + ttl])
  {
    if key == "" then Mark(false, data)
    else if key in data && !Expired(data[key], now) then Mark(true, data)
    else Mark(false, data[key := now + ttl])
  }

  /** The entries pruneExpired keeps. */
  function Unexpired(data: map<string, int>, now: int): (r: map<string, int>)
    ensures forall k :: k in r <==> k in data && !Expired(data[k], now)
    ensures forall k :: k in r ==> r[k] == data[k]
  {
    map k | k in data && !Expired(data[k], now) :: data[k]
  }

  class Deduper {
    const ttl: int
    var data: map<string, int>

    /** NewDeduper: a non-positive TTL falls back to ten minutes. */
    constructor (ttl: int)
      ensures this.ttl == (if ttl <= 0 then DefaultTtl else ttl)
      ensures data == map[]
    {
      this.ttl := if ttl <= 0 then DefaultTtl else ttl;
      data := map[];
    }

    /** Answers whether `key` is live, marking it (expiry now + ttl) when it is not. */
    method SeenOrMark(key: string, now: int) returns (seen: bool)
      modifies this
      ensures Mark(seen, data) == SeenOrMarkStep(old(data), ttl, key, now)
    {
      if key == "" {
        return false;
      }
      if key in data && !Expired(data[key], now) {
        return true;
      }
      data := data[key := now + ttl];
      return false;
    }

    /** Deletes every entry whose expiry has passed, one key at a time. */
    method PruneExpired(now: int)
      modifies this
      ensures data == Unexpired(old(data), now)
    {
      ghost var orig := data;
      var pending := data.Keys;
      while pending != {}
        invariant pending <= orig.Keys
        invariant forall k :: k in data <==> k in orig && (k in pending || !Expired(orig[k], now))
        invariant forall k :: k in data ==> data[k] == orig[k]
        decreases pending
      {
        var k :| k in pending;
        if Expired(data[k], now) {
          data := data - {k};
        }
        pending := pending - {k};
      }
    }
  }

  /** SeenOrMark on a possibly nil Deduper: nil answers false and marks nothing. */
  method SeenOrMarkOrNil(d: Deduper?, key: string, now: int) returns (seen: bool)
    modifies d
    ensures d == null ==> !seen
    ensures d != null ==> Mark(seen, d.data) == SeenOrMarkStep(old(d.data), d.ttl, key, now)
  {
    if d == null {
      return false;
    }
    seen := d.SeenOrMark(key, now);
  }

  // ---------------------------------------------------------------------
  // Sequences of calls on one key

  /** The answers of successive SeenOrMark calls on `key` at the instants `nows`. */
  function Answers(data: map<string, int>, ttl: int, key: string, nows: seq<int>): (r: seq<bool>)
    ensures |r| == |nows|
    decreases |nows|
  {
    if nows == [] then []
    else
      var m := SeenOrMarkStep(data, ttl, key, nows[0]);
      [m.seen] + Answers(m.data, ttl, key, nows[1..])
  }

  function CountFalse(answers: seq<bool>): nat {
    if answers == [] then 0 else (if answers[0] then 0 else 1) + CountFalse(answers[1..])
  }

  /** While the key's recorded expiry has not passed, every call answers true. */
  lemma {:induction false} AllSeenWhileLive(data: map<string, int>, ttl: int, key: string, nows: seq<int>)
    requires key != "" && key in data
    requires forall i :: 0 <= i < |nows| ==> !Expired(data[key], nows[i])
    ensures forall i :: 0 <= i < |nows| ==> Answers(data, ttl, key, nows)[i]
    ensures CountFalse(Answers(data, ttl, key, nows)) == 0
  {
    if nows != [] {
      AllSeenWhileLive(data, ttl, key, nows[1..]);
    }
  }

  /**
   * Among any calls on one key that fall within the TTL of the first, and
   * start from a map where the key is absent or expired, exactly one (the
   * first) answers false: the sequential form of "one winner among
   * concurrent deliveries".
   */
  lemma OneWinnerWithinTtl(data: map<string, int>, ttl: int, key: string, nows: seq<int>)
    requires key != "" && nows != []
    requires key !in data || Expired(data[key], nows[0])
    requires forall i :: 0 <= i < |nows| ==> nows[0] <= nows[i] <= nows[0] + ttl
    ensures !Answers(data, ttl, key, nows)[0]
    ensures forall i :: 0 < i < |nows| ==> Answers(data, ttl, key, nows)[i]
    ensures CountFalse(Answers(data, ttl, key, nows)) == 1
  {
    var m := SeenOrMarkStep(data, ttl, key, nows[0]);
    var rest := nows[1..];
    AllSeenWhileLive(m.data, ttl, key, rest);
    assert Answers(data, ttl, key, nows) == [false] + Answers(m.data, ttl, key, rest);
  }

  /** A key whose expiry has passed is treated as new again. */
  lemma ExpiredKeyIsNew(data: map<string, int>, ttl: int, key: string, now: int)
    requires key != "" && key in data && Expired(data[key], now)
    ensures !SeenOrMarkStep(data, ttl, key, now).seen
    ensures SeenOrMarkStep(data, ttl, key, now).data[key] == now + ttl
  {
  }
}
