/**
  The periodic clean-up of server/utils/whatsapp.js: one tick of the
  `setInterval` body, with the tick's `Date.now()` as an input. The timer
  itself and the log line are not modelled.
 */
module Sweep {
  import opened Store

  /** The keys a sweep at `now` removes: strictly past their expiry. */
  function ExpiredKeys(s: Store, now: int): set<string> {
    set k | k in s && s[k].expires < now
  }

  /** The reference definition: the store with exactly the expired keys dropped. */
  function Swept(s: Store, now: int): (r: Store)
    ensures r.Keys == s.Keys - ExpiredKeys(s, now)
    ensures forall k :: k in r ==> r[k] == s[k]
    ensures |r| == |s| - |ExpiredKeys(s, now)|
  {
    var r := map k | k in s && s[k].expires >= now :: s[k];
    assert r.Keys == s.Keys - ExpiredKeys(s, now);
    r
  }

  /** The `forEach` over `Object.keys(phoneVerifications)`: each key is
      visited once, deleted and counted when `expires < now`. */
  method RunSweep(s: Store, now: int) returns (r: Store, cleaned: nat)
    ensures r == Swept(s, now)
    ensures cleaned == |ExpiredKeys(s, now)|
    ensures cleaned == |s| - |r|
  {
    r := s;
    cleaned := 0;
    var pending := s.Keys;
    while pending != {}
      invariant pending <= s.Keys
      invariant forall k :: k in r <==> k in s && (k in pending || s[k].expires >= now)
      invariant forall k :: k in r ==> r[k] == s[k]
      invariant cleaned == |s| - |r|
      decreases |pending|
    {
      var k :| k in pending;
      if r[k].expires < now {
        r := r - {k};
        cleaned := cleaned + 1;
      }
      pending := pending - {k};
    }
    assert r.Keys == Swept(s, now).Keys;
  }
}
