/**
  `verifyCode` of server/utils/whatsapp.js as one atomic transition of the
  store: look the raw phone up, drop it if expired, count a failed attempt
  (dropping the entry at the third), or consume the entry on a match.
 */
module Verification {
  import opened JsArg
  import opened CodeGen
  import opened Store

  /** The boolean `verifyCode` returns and the store it leaves. */
  datatype Verdict<S> = Verdict(ok: bool, store: S)

  /** `entry.code === code` for a stored entry, whose code is a string:
      strict equality does not coerce, so only a string with the same
      characters matches, never a number or `undefined`. */
  function Matches(e: Entry, code: Arg): (r: bool)
    ensures r ==> code.Str?
    ensures code.Str? ==> (r <==> code.value == e.code)
  {
    code == Str(e.code)
  }

  function Verify(s: Store, phone: string, code: Arg, now: int): (r: Verdict<Store>)
    // Accepted exactly for a present, live entry whose code is submitted.
    ensures r.ok <==> phone in s && Live(s[phone], now) && Matches(s[phone], code)
    // Only the submitted phone's entry can change.
    ensures SameExcept(s, r.store, phone)
    // Absent: nothing changes.
    ensures phone !in s ==> r.store == s
    // Expired, matched, or out of attempts: the entry is gone.
    ensures phone in s && !Live(s[phone], now) ==> phone !in r.store
    ensures r.ok ==> phone !in r.store
    // A live mismatch counts one failed attempt, and the third removes the entry.
    ensures phone in s && Live(s[phone], now) && !Matches(s[phone], code) ==>
      (phone in r.store <==> s[phone].attempts + 1 < MaxAttempts) &&
      (phone in r.store ==> r.store[phone] == s[phone].(attempts := s[phone].attempts + 1))
    ensures Valid(s) ==> Valid(r.store)
  {
    if phone !in s then Verdict(false, s)
    else
      var e := s[phone];
      if now > e.expires then Verdict(false, s - {phone})
      else if !Matches(e, code) then
        var attempts := e.attempts + 1;
        if attempts >= MaxAttempts then Verdict(false, s - {phone})
        else Verdict(false, s[phone := e.(attempts := attempts)])
      else Verdict(true, s - {phone})
  }
}
