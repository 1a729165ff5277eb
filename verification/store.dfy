/**
  The in-memory verification store `phoneVerifications` of
  server/utils/whatsapp.js: a map from the phone string exactly as the caller
  gave it to the entry `{code, expires, attempts}`. Time is an explicit
  millisecond timestamp, the value `Date.now()` would return.
 */
module Store {
  import opened CodeGen

  /** Five minutes, in milliseconds. */
  const Ttl: int := 5 * 60 * 1000

  /** An entry is deleted once its failed attempts reach this count. */
  const MaxAttempts: nat := 3

  datatype Entry = Entry(code: string, expires: int, attempts: nat)

  type Store = map<string, Entry>

  /** What every reachable store satisfies: well-formed codes, and no entry
      that has already used up its attempts. */
  predicate Valid(s: Store) {
    forall k :: k in s ==> IsCode(s[k].code) && s[k].attempts < MaxAttempts
  }

  /** An entry is live at `now` up to and including its expiry instant. */
  predicate Live(e: Entry, now: int) {
    now <= e.expires
  }

  /** `s` and `t` agree on every key other than `k`. */
  ghost predicate SameExcept(s: Store, t: Store, k: string) {
    forall j :: j != k ==> (j in s <==> j in t) && (j in s ==> s[j] == t[j])
  }
}
