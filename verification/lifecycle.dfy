/**
  Properties of the engine that relate several calls: the life of one entry
  from issuance to consumption, exhaustion or expiry, the independence of
  different phones, and the clean-up's exactness and invisibility.
 */
module Lifecycle {
  import opened Wrappers
  import opened JsArg
  import opened CodeGen
  import opened Store
  import opened Gateway
  import opened Issuance
  import opened Verification
  import opened Sweep

  /** The store right after an accepted issuance for `phone` at `now`. */
  function Issued(s: Store, phone: string, now: int, draw: Draw, gateway: GatewayResult): Store
    requires phone != ""
  {
    Issue(s, true, Str(phone), now, draw, gateway).store
  }

  /** The issued code verifies once while the entry is live, whether or not
      delivery succeeded, and a repeat with the same code fails: the entry
      was consumed. */
  lemma IssuedCodeVerifiesOnce(s: Store, phone: string, now: int, draw: Draw, gateway: GatewayResult, t: int, t': int)
    requires phone != ""
    requires now <= t <= now + Ttl
    ensures var first := Verify(Issued(s, phone, now, draw, gateway), phone, Str(GenerateCode(draw)), t);
      first.ok && !Verify(first.store, phone, Str(GenerateCode(draw)), t').ok
  {
  }

  /** The entry is live up to and including its expiry instant and dead one
      millisecond later, when reading it also deletes it. */
  lemma ExpiryBoundary(s: Store, phone: string, now: int, draw: Draw, gateway: GatewayResult)
    requires phone != ""
    ensures Verify(Issued(s, phone, now, draw, gateway), phone, Str(GenerateCode(draw)), now + Ttl).ok
    ensures var late := Verify(Issued(s, phone, now, draw, gateway), phone, Str(GenerateCode(draw)), now + Ttl + 1);
      !late.ok && phone !in late.store
  {
  }

  /** Three wrong submissions within the lifetime remove the entry, after
      which even the issued code is refused. */
  lemma ThreeWrongSubmissions(s: Store, phone: string, now: int, draw: Draw, gateway: GatewayResult,
                              c1: Arg, c2: Arg, c3: Arg, t1: int, t2: int, t3: int, t4: int)
    requires phone != ""
    requires c1 != Str(GenerateCode(draw)) && c2 != Str(GenerateCode(draw)) && c3 != Str(GenerateCode(draw))
    requires t1 <= now + Ttl && t2 <= now + Ttl && t3 <= now + Ttl
    ensures var v1 := Verify(Issued(s, phone, now, draw, gateway), phone, c1, t1);
      var v2 := Verify(v1.store, phone, c2, t2);
      var v3 := Verify(v2.store, phone, c3, t3);
      && !v1.ok && !v2.ok && !v3.ok
      && phone in v1.store && v1.store[phone].attempts == 1
      && phone in v2.store && v2.store[phone].attempts == 2
      && phone !in v3.store
      && !Verify(v3.store, phone, Str(GenerateCode(draw)), t4).ok
  {
    ThreeWrongFromFresh(Issued(s, phone, now, draw, gateway), phone, GenerateCode(draw), now + Ttl,
                        c1, c2, c3, t1, t2, t3, t4);
  }

  /** The same for any store holding a fresh entry under `phone`. */
  lemma ThreeWrongFromFresh(s0: Store, phone: string, code: string, expires: int,
                            c1: Arg, c2: Arg, c3: Arg, t1: int, t2: int, t3: int, t4: int)
    requires phone in s0 && s0[phone] == Entry(code, expires, 0)
    requires c1 != Str(code) && c2 != Str(code) && c3 != Str(code)
    requires t1 <= expires && t2 <= expires && t3 <= expires
    ensures var v1 := Verify(s0, phone, c1, t1);
      var v2 := Verify(v1.store, phone, c2, t2);
      var v3 := Verify(v2.store, phone, c3, t3);
      && !v1.ok && !v2.ok && !v3.ok
      && phone in v1.store && v1.store[phone].attempts == 1
      && phone in v2.store && v2.store[phone].attempts == 2
      && phone !in v3.store
      && !Verify(v3.store, phone, Str(code), t4).ok
  {
  }

  /** Re-issuing for the same phone with a different draw makes the earlier
      code worthless, at any time. */
  lemma ReissueInvalidatesEarlierCode(s: Store, phone: string, now: int, now': int, a: Draw, b: Draw,
                                      g: GatewayResult, g': GatewayResult, t: int)
    requires phone != "" && a != b
    ensures !Verify(Issued(Issued(s, phone, now, a, g), phone, now', b, g'), phone, Str(GenerateCode(a)), t).ok
  {
  }

  /** The key is the phone as given: "123" and "+123" share a delivery
      address but not an entry. */
  lemma KeyIsRawPhone(s: Store, now: int, draw: Draw, gateway: GatewayResult, code: Arg, t: int)
    requires "+123" !in s
    ensures Address("123") == Address("+123")
    ensures !Verify(Issued(s, "123", now, draw, gateway), "+123", code, t).ok
  {
    assert FormatPhone("123") == "+123" && FormatPhone("+123") == "+123";
    var r := Issue(s, true, Str("123"), now, draw, gateway);
    assert Accepted(true, Str("123"));
    assert "+123" !in r.store by {
      assert r.store.Keys == s.Keys + {"123"};
      assert "123" != "+123";
    }
  }

  /** When the ten-second timer wins the race, the call reports a timeout,
      yet the entry it stored stays. */
  lemma TimeoutKeepsEntry(s: Store, phone: string, now: int, draw: Draw)
    requires phone != ""
    ensures var r := Issue(s, true, Str(phone), now, draw, TimedOut);
      r.outcome == Failed(Timeout) && phone in r.store
  {
    TimedOutIsTimeout();
  }

  /** Verifications of two different phones commute: neither sees the other. */
  lemma VerifyDifferentPhonesCommute(s: Store, p: string, q: string, cp: Arg, cq: Arg, tp: int, tq: int)
    requires p != q
    ensures var a1 := Verify(s, p, cp, tp);
      var a2 := Verify(a1.store, q, cq, tq);
      var b1 := Verify(s, q, cq, tq);
      var b2 := Verify(b1.store, p, cp, tp);
      a1.ok == b2.ok && a2.ok == b1.ok && a2.store == b2.store
  {
    var a1 := Verify(s, p, cp, tp);
    var a2 := Verify(a1.store, q, cq, tq);
    var b1 := Verify(s, q, cq, tq);
    var b2 := Verify(b1.store, p, cp, tp);
    VerifyIsLocal(s, b1.store, p, cp, tp);
    VerifyIsLocal(s, a1.store, q, cq, tq);
    forall k
      ensures k in a2.store <==> k in b2.store
      ensures k in a2.store ==> a2.store[k] == b2.store[k]
    {
      if k != p && k != q {
        assert (k in a2.store <==> k in s) && (k in b2.store <==> k in s);
      }
    }
    assert a2.store == b2.store;
  }

  /** What verification answers and leaves under its phone depends only on
      that phone's entry. */
  lemma VerifyIsLocal(s: Store, s': Store, phone: string, code: Arg, now: int)
    requires phone in s <==> phone in s'
    requires phone in s ==> s[phone] == s'[phone]
    ensures var r, r' := Verify(s, phone, code, now), Verify(s', phone, code, now);
      && r.ok == r'.ok
      && (phone in r.store <==> phone in r'.store)
      && (phone in r.store ==> r.store[phone] == r'.store[phone])
  {
  }

  /** A second sweep at the same instant finds nothing to remove. */
  lemma SweepIdempotent(s: Store, now: int)
    ensures Swept(Swept(s, now), now) == Swept(s, now)
    ensures |ExpiredKeys(Swept(s, now), now)| == 0
  {
  }

  lemma SweepPreservesValid(s: Store, now: int)
    requires Valid(s)
    ensures Valid(Swept(s, now))
  {
  }

  /** Sweeping never changes what a verification at the same instant
      answers, and sweeping before or after it leaves the same store: the
      entries it removes are ones verification already treats as dead. */
  lemma SweepInvisibleToVerify(s: Store, phone: string, code: Arg, now: int)
    ensures Verify(Swept(s, now), phone, code, now).ok == Verify(s, phone, code, now).ok
    ensures Verify(Swept(s, now), phone, code, now).store == Swept(Verify(s, phone, code, now).store, now)
  {
    if phone in s && s[phone].expires < now {
      SweepThenVerifyExpired(s, phone, code, now);
    } else {
      SweepThenVerifyKept(s, phone, code, now);
    }
  }

  /** An entry the sweep removes: verification would delete it anyway. */
  lemma SweepThenVerifyExpired(s: Store, phone: string, code: Arg, now: int)
    requires phone in s && s[phone].expires < now
    ensures Verify(Swept(s, now), phone, code, now) == Verdict(false, Swept(s, now))
    ensures Verify(s, phone, code, now) == Verdict(false, s - {phone})
    ensures Swept(s - {phone}, now) == Swept(s, now)
  {
  }

  /** An entry the sweep keeps, or no entry: both orders take the same step. */
  lemma SweepThenVerifyKept(s: Store, phone: string, code: Arg, now: int)
    requires phone !in s || s[phone].expires >= now
    ensures Verify(Swept(s, now), phone, code, now).ok == Verify(s, phone, code, now).ok
    ensures Verify(Swept(s, now), phone, code, now).store == Swept(Verify(s, phone, code, now).store, now)
  {
    var w := Swept(s, now);
    if phone in s {
      var e := s[phone];
      assert phone in w && w[phone] == e;
      if !Matches(e, code) && e.attempts + 1 < MaxAttempts {
        var e' := e.(attempts := e.attempts + 1);
        assert Verify(s, phone, code, now) == Verdict(false, s[phone := e']);
        assert Verify(w, phone, code, now) == Verdict(false, w[phone := e']);
        SweptUpdate(s, phone, e', now);
      } else {
        var ok := Matches(e, code);
        assert Verify(s, phone, code, now) == Verdict(ok, s - {phone});
        assert Verify(w, phone, code, now) == Verdict(ok, w - {phone});
        SweptRemove(s, phone, now);
      }
    } else {
      assert phone !in w;
    }
  }

  lemma SweptRemove(s: Store, k: string, now: int)
    ensures Swept(s - {k}, now) == Swept(s, now) - {k}
  {
  }

  lemma SweptUpdate(s: Store, k: string, e: Entry, now: int)
    requires e.expires >= now
    ensures Swept(s[k := e], now) == Swept(s, now)[k := e]
  {
    assert Swept(s[k := e], now).Keys == Swept(s, now)[k := e].Keys;
  }

  /** An entry left to expire is swept, and the phone then reads as absent. */
  lemma AbandonedEntryIsSwept(s: Store, phone: string, now: int, draw: Draw, gateway: GatewayResult, t: int, code: Arg)
    requires phone != "" && t > now + Ttl
    ensures phone !in Swept(Issued(s, phone, now, draw, gateway), t)
    ensures var v := Verify(Swept(Issued(s, phone, now, draw, gateway), t), phone, code, t);
      !v.ok && phone !in v.store
  {
  }

  /** One exported call, or one tick of the clean-up, with its inputs. */
  datatype Call =
    | IssueCall(clientReady: bool, phoneArg: Arg, now: int, draw: Draw, gateway: GatewayResult)
    | VerifyCall(phone: string, code: Arg, now: int)
    | SweepCall(now: int)

  function Step(s: Store, c: Call): Store {
    match c
    case IssueCall(ready, phone, now, draw, gateway) => Issue(s, ready, phone, now, draw, gateway).store
    case VerifyCall(phone, code, now) => Verify(s, phone, code, now).store
    case SweepCall(now) => Swept(s, now)
  }

  /** The store after the calls, in order: each is atomic on Node's event loop. */
  function Run(s: Store, calls: seq<Call>): Store
    decreases |calls|
  {
    if |calls| == 0 then s else Run(Step(s, calls[0]), calls[1..])
  }

  /** Whatever the calls and their interleaving, every stored code is six
      digits without a leading zero and no stored entry has used up its
      three attempts. */
  lemma {:induction false} RunPreservesValid(s: Store, calls: seq<Call>)
    requires Valid(s)
    ensures Valid(Run(s, calls))
    decreases |calls|
  {
    if |calls| > 0 {
      if calls[0].SweepCall? {
        SweepPreservesValid(s, calls[0].now);
      }
      RunPreservesValid(Step(s, calls[0]), calls[1..]);
    }
  }

  lemma ReachableStoresValid(calls: seq<Call>)
    ensures Valid(Run(map[], calls))
  {
    RunPreservesValid(map[], calls);
  }
}
