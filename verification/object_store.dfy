/**
  The store as server/utils/whatsapp.js really holds it: a plain object
  literal `{}`, indexed by the caller's phone string. Such an object is a
  map only for ordinary keys, because reading a key it does not own falls
  through to its prototype:
    - the key "__proto__" names an accessor inherited from
      `Object.prototype`: assigning an entry to it replaces the object's
      prototype instead of adding an own property, and reading it returns
      the prototype, so the entry is found again;
    - the names of `Object.prototype`'s methods ("toString", …) read as
      functions, and once an entry has become the prototype its fields
      ("code", "expires", "attempts") read as its values;
    - `delete` only removes own properties, so deleting "__proto__" does
      nothing;
    - `Object.keys` lists own properties only, so the clean-up never sees it.
  This module models those semantics as written, exhibits what they do to a
  phone equal to "__proto__", and shows that on every other phone that reads
  as an entry or as nothing they agree with the map model the rest of the
  project uses, which is the corrected behaviour (a store with no inherited
  keys, such as a `Map`).
 */
module ObjectStore {
  import opened Wrappers
  import opened JsArg
  import opened CodeGen
  import opened Store
  import opened Gateway
  import Issuance
  import Verification
  import Sweep

  const ProtoKey: string := "__proto__"

  /** The methods every plain object inherits from `Object.prototype`,
      besides the `__proto__` accessor; each reads as a function. */
  const ObjectPrototypeNames: set<string> := {
    "constructor", "hasOwnProperty", "isPrototypeOf", "propertyIsEnumerable",
    "toLocaleString", "toString", "valueOf",
    "__defineGetter__", "__defineSetter__", "__lookupGetter__", "__lookupSetter__"
  }

  /** The own properties of an entry object. */
  const EntryFieldNames: set<string> := {"code", "expires", "attempts"}

  /** A phone no plain object and no entry inherits a property for. */
  predicate Plain(k: string) {
    k != ProtoKey && k !in ObjectPrototypeNames && k !in EntryFieldNames
  }

  /** Own properties, the entry assigned through `__proto__` if any, and the
      `attempts` property `verifyCode` may have written onto
      `Object.prototype` itself (0 while it is `undefined`: every write
      stores a count of at least 1). That last property is shared by every
      object of the process, not only by the store. */
  datatype JsStore = JsStore(own: map<string, Entry>, proto: Option<Entry>, inheritedAttempts: nat)

  /** What `phoneVerifications[phone]` yields, as far as `verifyCode` can
      tell: nothing it treats as absent (`undefined`, or a falsy inherited
      value), an entry, or a truthy value that is not an entry and so has
      neither `code` nor `expires`. */
  datatype Lookup = Missing | Found(entry: Entry) | Foreign

  predicate WellFormed(o: JsStore) {
    ProtoKey !in o.own
  }

  /** The truthiness of field `k` of an entry: the code string is falsy only
      when empty, the numbers only when zero. */
  predicate FieldTruthy(e: Entry, k: string) {
    if k == "code" then e.code != ""
    else if k == "expires" then e.expires != 0
    else e.attempts != 0
  }

  /** `phoneVerifications[k]`: an own property first, then the prototype chain. */
  function Get(o: JsStore, k: string): (r: Lookup)
    ensures k in o.own && k != ProtoKey ==> r == Found(o.own[k])
    // Apart from "__proto__", only an own property reads as an entry.
    ensures r.Found? && k != ProtoKey ==> k in o.own
    // A phone that is not owned and not inherited reads as absent.
    ensures k !in o.own && Plain(k) ==> r == Missing
    // "__proto__" reads as the assigned entry, or as `Object.prototype` before any.
    ensures k == ProtoKey ==> r == (if o.proto.Some? then Found(o.proto.value) else Foreign)
    // The methods of `Object.prototype` read as functions.
    ensures k !in o.own && k in ObjectPrototypeNames ==> r == Foreign
    // A field name reads as that field of the entry held through "__proto__",
    // or else as whatever was written onto `Object.prototype`.
    ensures k !in o.own && k in EntryFieldNames ==>
      r == (if o.proto.Some? then (if FieldTruthy(o.proto.value, k) then Foreign else Missing)
            else if k == "attempts" && o.inheritedAttempts > 0 then Foreign
            else Missing)
  {
    if k == ProtoKey then (if o.proto.Some? then Found(o.proto.value) else Foreign)
    else if k in o.own then Found(o.own[k])
    else if k in ObjectPrototypeNames then Foreign
    else if k in EntryFieldNames then
      if o.proto.Some? then (if FieldTruthy(o.proto.value, k) then Foreign else Missing)
      else if k == "attempts" && o.inheritedAttempts > 0 then Foreign
      else Missing
    else Missing
  }

  /** `phoneVerifications[k] = e`, and also the in-place `entry.attempts = …`
      on the object found under `k`. */
  function Put(o: JsStore, k: string, e: Entry): (r: JsStore)
    requires WellFormed(o)
    ensures WellFormed(r)
    ensures Get(r, k) == Found(e)
    // Assigning "__proto__" creates no own property.
    ensures k == ProtoKey ==> r.own == o.own
    // Every other phone reads as before, except that a new prototype entry
    // changes what its field names read as.
    ensures forall j :: j != k && !(k == ProtoKey && j in EntryFieldNames) ==> Get(r, j) == Get(o, j)
  {
    if k == ProtoKey then o.(proto := Some(e)) else o.(own := o.own[k := e])
  }

  /** `delete phoneVerifications[k]`: own properties only. */
  function Delete(o: JsStore, k: string): (r: JsStore)
    requires WellFormed(o)
    ensures WellFormed(r)
    ensures k !in r.own
    ensures Plain(k) ==> Get(r, k) == Missing
    ensures k == ProtoKey ==> r == o
    ensures forall j :: j != k ==> Get(r, j) == Get(o, j)
  {
    o.(own := o.own - {k})
  }

  /** `sendVerificationCode`'s effect on the object store. */
  function JsIssue(o: JsStore, clientReady: bool, phone: Arg, now: int, draw: Draw): (r: JsStore)
    requires WellFormed(o)
    ensures WellFormed(r)
    ensures !Issuance.Accepted(clientReady, phone) ==> r == o
    ensures Issuance.Accepted(clientReady, phone) ==>
      && Get(r, phone.value) == Found(Entry(GenerateCode(draw), now + Ttl, 0))
      && SameExcept(o.own, r.own, phone.value)
      && (phone.value in r.own <==> phone.value != ProtoKey)
    // An ordinary phone becomes an own property; only "__proto__" replaces the prototype.
    ensures Issuance.Accepted(clientReady, phone) && phone.value != ProtoKey ==> r.proto == o.proto
    ensures r.inheritedAttempts == o.inheritedAttempts
  {
    if Issuance.Accepted(clientReady, phone) then Put(o, phone.value, Entry(GenerateCode(draw), now + Ttl, 0))
    else o
  }

  /** `verifyCode` on the object store, step for step. */
  function JsVerify(o: JsStore, phone: string, code: Arg, now: int): (r: Verification.Verdict<JsStore>)
    requires WellFormed(o)
    ensures WellFormed(r.store)
    // Accepted for a live entry whose code is submitted, and for any
    // non-entry value when the code is `undefined`.
    ensures r.ok <==>
      || (Get(o, phone).Found? && Live(Get(o, phone).entry, now) && Verification.Matches(Get(o, phone).entry, code))
      || (Get(o, phone).Foreign? && code == Undefined)
    ensures Get(o, phone).Missing? ==> r.store == o
    // A non-entry value leaves the store's own properties and prototype as
    // they are; a wrong code for "__proto__" before any issuance counts its
    // attempt on `Object.prototype`.
    ensures Get(o, phone).Foreign? ==> r.store.own == o.own && r.store.proto == o.proto
    ensures r.store.inheritedAttempts ==
      o.inheritedAttempts + (if phone == ProtoKey && o.proto.None? && code != Undefined then 1 else 0)
    // Only the submitted phone can change; for "__proto__" no own property
    // does, and its entry survives every outcome, counting a live mismatch.
    ensures SameExcept(o.own, r.store.own, phone)
    ensures phone != ProtoKey ==> r.store.proto == o.proto
    ensures phone == ProtoKey ==> r.store.own == o.own
    ensures phone == ProtoKey && o.proto.Some? ==>
      var e := o.proto.value;
      r.store.proto == Some(if Live(e, now) && !Verification.Matches(e, code) then e.(attempts := e.attempts + 1) else e)
  {
    match Get(o, phone)
    case Missing => Verification.Verdict(false, o)
    // `Date.now() > undefined` is false, and `undefined !== code` holds
    // unless `code` is `undefined` too. A failed attempt then writes
    // `attempts` onto the value found: for "__proto__" that is
    // `Object.prototype`, for the other names an object or primitive outside
    // the store.
    case Foreign =>
      if code == Undefined then Verification.Verdict(true, o)
      else if phone == ProtoKey then
        Verification.Verdict(false, o.(inheritedAttempts := o.inheritedAttempts + 1))
      else Verification.Verdict(false, o)
    case Found(e) =>
      if now > e.expires then Verification.Verdict(false, Delete(o, phone))
      else if !Verification.Matches(e, code) then
        var e' := e.(attempts := e.attempts + 1);
        var o' := Put(o, phone, e');
        if e'.attempts >= MaxAttempts then Verification.Verdict(false, Delete(o', phone))
        else Verification.Verdict(false, o')
      else Verification.Verdict(true, Delete(o, phone))
  }

  /** One tick of the clean-up: `Object.keys` yields own keys only. */
  function JsSweep(o: JsStore, now: int): (r: JsStore)
    requires WellFormed(o)
    ensures WellFormed(r)
    ensures r.proto == o.proto
    ensures r.own == Sweep.Swept(o.own, now)
    ensures r.inheritedAttempts == o.inheritedAttempts
  {
    o.(own := map k | k in o.own && o.own[k].expires >= now :: o.own[k])
  }

  /** As written, the code issued for "__proto__" verifies again and again
      while live: the entry is never consumed. */
  lemma ProtoKeyCodeReplays(o: JsStore, now: int, draw: Draw, t: int, t': int)
    requires WellFormed(o)
    requires now <= t <= now + Ttl && now <= t' <= now + Ttl
    ensures var first := JsVerify(JsIssue(o, true, Str(ProtoKey), now, draw), ProtoKey, Str(GenerateCode(draw)), t);
      first.ok && JsVerify(first.store, ProtoKey, Str(GenerateCode(draw)), t').ok
  {
  }

  /** As written, three wrong codes for "__proto__" do not remove its entry,
      and the issued code is still accepted afterwards. */
  lemma ProtoKeyIgnoresAttemptLimit(o: JsStore, now: int, draw: Draw, c: Arg, t: int)
    requires WellFormed(o)
    requires c != Str(GenerateCode(draw))
    requires now <= t <= now + Ttl
    ensures var s0 := JsIssue(o, true, Str(ProtoKey), now, draw);
      var v1 := JsVerify(s0, ProtoKey, c, t);
      var v2 := JsVerify(v1.store, ProtoKey, c, t);
      var v3 := JsVerify(v2.store, ProtoKey, c, t);
      && Get(v3.store, ProtoKey) == Found(Entry(GenerateCode(draw), now + Ttl, 3))
      && JsVerify(v3.store, ProtoKey, Str(GenerateCode(draw)), t).ok
  {
  }

  /** As written, the clean-up never removes the "__proto__" entry, however
      long ago it expired. */
  lemma ProtoKeyNeverSwept(o: JsStore, now: int, draw: Draw, t: int)
    requires WellFormed(o)
    ensures Get(JsSweep(JsIssue(o, true, Str(ProtoKey), now, draw), t), ProtoKey).Found?
  {
  }

  /** As written, a phone that reads as an inherited value, such as
      "toString" or "__proto__" before any issuance, is accepted with an
      `undefined` code although no code was ever issued for it. */
  lemma InheritedNameAcceptsUndefined(o: JsStore, phone: string, now: int)
    requires WellFormed(o) && phone !in o.own
    requires phone in ObjectPrototypeNames || (phone == ProtoKey && o.proto.None?)
    ensures JsVerify(o, phone, Undefined, now) == Verification.Verdict(true, o)
  {
  }

  /** As written, a wrong code for "__proto__" before anything was issued
      for it writes the attempt counter onto `Object.prototype`. From then
      on every object inherits `attempts`, and the phone "attempts", for
      which no code was issued, is accepted with an `undefined` code. */
  lemma WrongProtoCodePollutesAttempts(o: JsStore, code: Arg, now: int, t: int)
    requires WellFormed(o) && o.proto.None? && o.inheritedAttempts == 0 && "attempts" !in o.own
    requires code != Undefined
    ensures Get(o, "attempts") == Missing
    ensures var v := JsVerify(o, ProtoKey, code, now);
      && !v.ok
      && v.store.inheritedAttempts == 1
      && Get(v.store, "attempts") == Foreign
      && JsVerify(v.store, "attempts", Undefined, t).ok
  {
  }

  /** On every phone but "__proto__" that reads as an entry or as nothing,
      the object store behaves exactly as the map model: same answer, same
      own properties afterwards. */
  lemma AgreesWithMapModel(o: JsStore, phone: string, code: Arg, now: int)
    requires WellFormed(o) && phone != ProtoKey && !Get(o, phone).Foreign?
    ensures JsVerify(o, phone, code, now).ok == Verification.Verify(o.own, phone, code, now).ok
    ensures JsVerify(o, phone, code, now).store.own == Verification.Verify(o.own, phone, code, now).store
  {
  }

  lemma IssueAgreesWithMapModel(o: JsStore, clientReady: bool, phone: Arg, now: int, draw: Draw, gateway: GatewayResult)
    requires WellFormed(o) && phone != Str(ProtoKey)
    ensures JsIssue(o, clientReady, phone, now, draw).own == Issuance.Issue(o.own, clientReady, phone, now, draw, gateway).store
  {
  }
}
