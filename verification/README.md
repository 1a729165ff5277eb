# Phone verification (one-time code) engine — a Dafny model

This project models the WhatsApp phone-verification engine of
`server/utils/whatsapp.js`. The engine has four parts:

- **Code generator.** It makes a six-digit code.
- **Store.** `phoneVerifications` is an in-memory store keyed by the phone
  string as the caller gave it. Each key holds `{code, expires, attempts}`.
- **Issuance.** `sendVerificationCode` checks its inputs and overwrites the
  store entry. It then hands the code to the messaging gateway and maps any
  failure to a fixed set of user-facing messages.
- **Verification.** `verifyCode` handles, in this order: a missing entry,
  expiry, a wrong code (counting attempts and deleting the entry at the
  third) and a match (which consumes the entry).

A periodic clean-up removes expired entries.

Every operation is one atomic transition over the store. In the program
each call runs to completion on Node's single thread, and issuance writes
the store before its only `await`. The model makes the following explicit
inputs:

- the clock reading (`now`, in milliseconds);
- the random draw (the integer `Math.floor(100000 + Math.random() * 900000) - 100000`,
  in [0, 899999]);
- whether the provider client exists;
- the gateway's outcome: a delivered message id, or an error with an
  optional numeric provider code and a message.

Modules, leaves first:

- `Decimal` (decimal.dfy): the decimal rendering `toString()` gives a
  non-negative integer, and its inverse.
- `CodeGen` (codegen.dfy): `generateCode` and the shape of a code.
- `Text` (text.dfy): `startsWith` and `includes`, plus lemmas for showing
  that a word does not occur.
- `JsArg` (jsarg.dfy): a request-body argument: a string, `undefined`, or
  some other non-string value.
- `Store` (store.dfy): the entry, the store and its invariant, and the
  five-minute lifetime and three-attempt limit.
- `Gateway` (gateway.dfy): the gateway outcome, the classification of
  failures and the user-facing messages.
- `Issuance` (issuance.dfy): `sendVerificationCode`.
- `Verification` (verification.dfy): `verifyCode`.
- `Sweep` (sweep.dfy): one tick of the clean-up, as a reference function and
  as the key-by-key loop of the source.
- `Lifecycle` (lifecycle.dfy): properties that relate several calls.
- `ObjectStore` (object_store.dfy): the store as a plain JavaScript object;
  see Findings.

Four facts about the code shape the model:

- **Code range.** Codes are `100000 + draw` for a draw in [0, 899999], so
  every code has six digits and none starts with '0'; no zero-padding is
  involved.
- **Store key.** The store is keyed by the phone exactly as the caller gave
  it. The `+`-prefixed form is used only for the delivery address, so "123"
  and "+123" share an address but not an entry.
- **Verification result.** `verifyCode` returns a bare boolean: a missing
  entry, an expired one, a wrong code and an exhausted entry all answer
  `false`.
- **Input checks.** `sendVerificationCode` checks the client before the
  phone, and both failures end in the generic message.

## Model

| member | source | states |
|---|---|---|
| Decimal.ToDecimal | server/utils/whatsapp.js:28 | The `toString()` rendering is a non-empty digit string with no superfluous leading zero; its first digit is '0' only for zero |
| Decimal.ValueOfToDecimal | server/utils/whatsapp.js:28 | Reading the rendering back as a decimal number gives the original number |
| Decimal.ToDecimalValueOf | server/utils/whatsapp.js:28 | Rendering the value of a canonical digit string gives that string back, so rendering and reading are mutually inverse |
| Decimal.DecimalLength | server/utils/whatsapp.js:28 | A number in [10^(k-1), 10^k) renders as exactly k digits |
| CodeGen.GenerateCode | server/utils/whatsapp.js:27-29 | Every code is exactly six ASCII digits whose first digit is not '0', and its numeric value is 100000 + draw, within [100000, 999999] |
| CodeGen.GenerateCodeInjective | server/utils/whatsapp.js:27-29 | Two draws give the same code if and only if they are equal |
| CodeGen.GenerateCodeOnto | server/utils/whatsapp.js:27-29 | Every six-digit string without a leading zero is the code of exactly one draw, so the generator's range is exactly those 900000 strings |
| Text.Includes | server/utils/whatsapp.js:88-92 | `includes` is true exactly when the needle occurs at some index of the message |
| Gateway.UserMessage | server/utils/whatsapp.js:78-96 | Each kind's user-facing message has a length no other kind's message has, which makes the messages pairwise distinct |
| Gateway.Classify | server/utils/whatsapp.js:78-96 | A recognised provider code decides the kind whatever the message says. Without one, "timeout" gives the timeout kind; otherwise "ENOTFOUND" or "ECONNREFUSED" gives the network kind; otherwise "authentication" gives the authentication kind. The generic kind arises exactly when neither the code nor any keyword matches |
| Gateway.FirstRule | server/utils/whatsapp.js:88-94 | The ordered message rules yield nothing exactly when no rule's keywords occur, and otherwise the kind of the first rule whose keywords occur |
| Gateway.ClassifyIsTableDriven | server/utils/whatsapp.js:78-96 | The chain of tests equals a lookup in the provider-code table followed by the ordered message rules, falling back to the generic kind: a total, table-driven mapping |
| Gateway.TimedOutIsTimeout | server/utils/whatsapp.js:65-89 | The timer's `Request timeout` rejection is classified as the timeout message |
| Gateway.UserMessageInjective | server/utils/whatsapp.js:78-96 | The eight messages are pairwise distinct, so the thrown message identifies the kind |
| Issuance.FormatPhone | server/utils/whatsapp.js:43-47 | The delivery form starts with '+', ends with the phone as given, and is at most one character longer; it is the phone itself exactly when the phone already starts with '+' |
| Issuance.FormatPhoneIdempotent | server/utils/whatsapp.js:43-47 | Formatting an already formatted phone changes nothing |
| Issuance.FormatPhoneCollides | server/utils/whatsapp.js:43-47 | Two phones get the same delivery form exactly when they are equal or one is the other, lacking '+', with '+' added |
| Issuance.Address | server/utils/whatsapp.js:62 | The recipient address is "whatsapp:" followed by the delivery form of the phone |
| Issuance.AddressSharedExactly | server/utils/whatsapp.js:43-62 | Two phones share a recipient address exactly when they share a delivery form |
| Issuance.MessageBody | server/utils/whatsapp.js:63 | The delivered text contains the code |
| Issuance.Issue | server/utils/whatsapp.js:31-98 | A missing client or an empty or non-string phone leaves the store untouched, sends nothing and reports the generic message. Otherwise the raw phone's entry becomes a fresh entry (the generated code, expiry now + 300000, no attempts) and every other key is unchanged. The entry is kept whatever the gateway reports. Success comes exactly on delivery and carries the provider's id, and a failure carries the classification of the gateway error. The store invariant is preserved |
| Issuance.PreconditionErrorsAreGeneric | server/utils/whatsapp.js:34-96 | The two input-check errors contain none of the catch block's keywords, so both surface as "Failed to send WhatsApp code" |
| Verification.Matches | server/utils/whatsapp.js:115 | Strict comparison: a submitted code matches a stored one only if it is a string with the same characters, never a number or `undefined` |
| Verification.Verify | server/utils/whatsapp.js:100-129 | The answer is true exactly for a present entry with now <= expires whose code is submitted as that same string. An absent phone changes nothing. An expired entry, a matched entry and an entry at its third failed attempt are deleted. Any other mismatch increments attempts and keeps the code and expiry. No other key changes, and the store invariant (no entry with 3 or more attempts) is preserved |
| Sweep.Swept | server/utils/whatsapp.js:137-151 | After a clean-up the keys are exactly the unexpired ones with their entries unchanged, and the store shrank by the number of expired keys |
| Sweep.RunSweep | server/utils/whatsapp.js:137-151 | The key-by-key loop leaves exactly the reference result, and its count equals both the number of expired keys and the number of entries removed |
| Lifecycle.IssuedCodeVerifiesOnce | server/utils/whatsapp.js:49-129 | The issued code verifies at any instant up to its expiry, whether or not delivery succeeded, and a repeat with the same code fails |
| Lifecycle.ExpiryBoundary | server/utils/whatsapp.js:52-113 | The issued code is accepted at exactly now + 300000 and refused one millisecond later, when the entry is also deleted |
| Lifecycle.ThreeWrongSubmissions | server/utils/whatsapp.js:115-125 | Three wrong submissions within the lifetime leave attempts at 1, then 2, then remove the entry, after which the issued code is refused |
| Lifecycle.ThreeWrongFromFresh | server/utils/whatsapp.js:109-125 | The same three-step exhaustion for any store that holds a fresh entry under the phone |
| Lifecycle.ReissueInvalidatesEarlierCode | server/utils/whatsapp.js:49-54 | After a second issuance for the same phone with a different draw, the first code is refused at any time |
| Lifecycle.KeyIsRawPhone | server/utils/whatsapp.js:43-54 | "123" and "+123" get the same delivery address, but a code issued for "123" is not found under "+123" |
| Lifecycle.TimeoutKeepsEntry | server/utils/whatsapp.js:50-89 | When the timer wins the race, the call reports the timeout message while the stored entry stays |
| Lifecycle.VerifyDifferentPhonesCommute | server/utils/whatsapp.js:100-129 | Verifications of two different phones give the same answers and the same store in either order |
| Lifecycle.VerifyIsLocal | server/utils/whatsapp.js:100-129 | What verification answers, and what it leaves under its phone, depend only on that phone's entry |
| Lifecycle.SweepIdempotent | server/utils/whatsapp.js:137-151 | A second clean-up at the same instant removes nothing and changes nothing |
| Lifecycle.SweepPreservesValid | server/utils/whatsapp.js:137-151 | The clean-up keeps the store invariant |
| Lifecycle.SweepInvisibleToVerify | server/utils/whatsapp.js:109-146 | A clean-up before a verification at the same instant changes neither the verification's answer nor the final store. The clean-up only removes entries that verification already treats as dead |
| Lifecycle.SweepThenVerifyExpired | server/utils/whatsapp.js:109-146 | For an entry the clean-up removes, verification on the original store also refuses and deletes it |
| Lifecycle.SweepThenVerifyKept | server/utils/whatsapp.js:109-146 | For an absent or kept entry, verifying before or after the clean-up gives the same answer and store |
| Lifecycle.AbandonedEntryIsSwept | server/utils/whatsapp.js:137-146 | An entry left past its expiry is removed by the clean-up, and the phone then verifies as absent |
| Lifecycle.RunPreservesValid | server/utils/whatsapp.js:25-151 | Any sequence of issuances, verifications and clean-ups, in any interleaving, keeps the store invariant: every stored code is six digits without a leading zero and no stored entry has 3 or more attempts |
| Lifecycle.ReachableStoresValid | server/utils/whatsapp.js:25-151 | Every store reachable from the initial empty object satisfies that invariant |
| ObjectStore.Get | server/utils/whatsapp.js:102-104 | Reading the plain object. An owned phone reads as its entry. "__proto__" reads as the entry assigned through it, or as a non-entry value before any. The names of `Object.prototype`'s methods read as non-entry values. A field name ("code", "expires", "attempts") reads as a non-entry value exactly when that field of the entry held through "__proto__" is truthy, or, with no such entry, when "attempts" has been written onto `Object.prototype`. Any other phone that is not owned reads as absent, and apart from "__proto__" only owned phones read as entries |
| ObjectStore.Put | server/utils/whatsapp.js:50 | Assigning under any key, "__proto__" included, makes the entry readable under that key. Assigning "__proto__" adds no own property. Every other phone reads as before, except the entry's field names once the prototype is replaced |
| ObjectStore.Delete | server/utils/whatsapp.js:111 | `delete` removes the own property, leaves the object unchanged for "__proto__", leaves a phone no object inherits absent, and changes what no other phone reads as |
| ObjectStore.JsIssue | server/utils/whatsapp.js:31-54 | Issuance on the plain object: rejected calls change nothing; otherwise the phone reads as the fresh entry, no other own property changes, and the entry is an own property unless the phone is "__proto__". Only "__proto__" replaces the prototype, and nothing is written onto `Object.prototype` |
| ObjectStore.JsVerify | server/utils/whatsapp.js:100-129 | Verification on the plain object, as written. The answer is true exactly for a live entry whose code is submitted, or for an inherited non-entry value when the code is `undefined`. An absent phone changes nothing, and a non-entry value changes neither the own properties nor the prototype. Only a wrong code for "__proto__" before any issuance writes onto `Object.prototype`, adding one to its `attempts`. Only the submitted phone's own property can change. For "__proto__" none does: its entry survives every outcome, with a live mismatch counted on it |
| ObjectStore.JsSweep | server/utils/whatsapp.js:137-151 | The clean-up over own keys removes exactly what the map model's clean-up removes and never touches the entry held through "__proto__" or `Object.prototype` |
| ObjectStore.ProtoKeyCodeReplays | server/utils/whatsapp.js:50-129 | As written, the code issued for the phone "__proto__" is accepted twice in a row |
| ObjectStore.ProtoKeyIgnoresAttemptLimit | server/utils/whatsapp.js:115-125 | As written, three wrong codes for "__proto__" leave its entry at 3 attempts, and the issued code is then still accepted |
| ObjectStore.ProtoKeyNeverSwept | server/utils/whatsapp.js:141-146 | As written, the "__proto__" entry survives every clean-up |
| ObjectStore.InheritedNameAcceptsUndefined | server/utils/whatsapp.js:102-129 | As written, a phone that reads as an inherited method, or "__proto__" before any issuance, is accepted with an `undefined` code and nothing changes |
| ObjectStore.WrongProtoCodePollutesAttempts | server/utils/whatsapp.js:102-118 | As written, a wrong code for "__proto__" before any issuance is refused but sets `attempts` on `Object.prototype`. The phone "attempts", absent before, then reads as a non-entry value and is accepted with an `undefined` code |
| ObjectStore.AgreesWithMapModel | server/utils/whatsapp.js:100-129 | For every phone other than "__proto__" that reads as an entry or as absent, verification on the object store gives the map model's answer and own keys |
| ObjectStore.IssueAgreesWithMapModel | server/utils/whatsapp.js:44-54 | For every other phone, issuance on the object store gives the map model's store |

## Left out

- Building the Twilio client from environment variables (server/utils/whatsapp.js:2-22). It is configuration and a foreign library; whether a client exists is a boolean input.
- `client.messages.create` and the ten-second `Promise.race` timer (server/utils/whatsapp.js:59-68). They are a network call and wall-clock timing. Their combined result is an input, and the timer's rejection is the constant `Gateway.TimedOut`. The losing promise is not cancelled in the source, but its result is ignored, so it has no effect on the model.
- `Math.random()` and floating point (server/utils/whatsapp.js:28). The draw is the integer `Math.floor(100000 + Math.random() * 900000) - 100000`, given as an input. It is not `floor(Math.random() * 900000)`: the floating-point sum can round up before the floor is taken. Uniformity is a property of the random source, not of this code.
- The `setInterval` scheduling and all `console` output (server/utils/whatsapp.js:137, 148-151 and elsewhere). They are runtime and I/O; a clean-up tick is a function of its `now`.
- The `try/catch` of `verifyCode` (server/utils/whatsapp.js:130-133). It guards runtime exceptions that a typed model does not raise.
- Gateway errors whose `message` is not a string. `error.message.includes` would itself throw inside the catch block. Gateway errors are modelled as always carrying a message string.
- The phone argument of `verifyCode` is a string in the model. A non-string would be converted to a property key by the object lookup.
- ObjectStore.JsVerify: after a wrong code, `verifyCode` writes the counter onto whatever non-entry value it found. Only the write onto `Object.prototype` is modelled, because it changes what the store reads as. The same write onto an inherited method (a function object) or onto an entry's field (a primitive, where the write is dropped) is not modelled: nothing read through the store depends on it. The effect of `Object.prototype.attempts` on other code in the process is outside the engine.
- `verifyCode` with an `undefined` code is modelled, but its only caller, server/routes/auth.js:196-198, rejects a missing or empty code first. So the acceptance of inherited names that `ObjectStore.InheritedNameAcceptsUndefined` and `ObjectStore.WrongProtoCodePollutesAttempts` show cannot be reached over HTTP. The write onto `Object.prototype` itself can be reached: it needs only a non-empty wrong code for "__proto__".
- server/routes/auth.js, server/app.js, the client pages and utilities, and create-user.js. They are HTTP handlers, database access, UI and scripts. The two verification endpoints only wrap the engine in 400/500 responses.
- Concurrency and locking. Each call is one atomic step on Node's event loop, so every operation is modelled as a single transition.

## Findings

| source | as written | input that shows it | evidently intended | confidence | as-written member | corrected member |
|---|---|---|---|---|---|---|
| server/utils/whatsapp.js:25 | The store is a plain object `{}`, so the phone "__proto__" is written through the inherited prototype accessor. `delete` then never removes it, and `Object.keys` never lists it | Issue for phone "__proto__", then submit the issued code twice: both succeed. Three wrong codes also leave the entry usable, and the clean-up never removes it | A store with no inherited keys (a `Map`, or `Object.create(null)`), where every phone gets one-time use, the three-attempt limit and expiry clean-up | medium; not executed | ObjectStore.ProtoKeyCodeReplays | Lifecycle.IssuedCodeVerifiesOnce |
| server/utils/whatsapp.js:102-118 | `!entry` accepts any truthy value as an entry. For the phone "__proto__" before any issuance the value found is `Object.prototype`, and a wrong code makes `entry.attempts = …` write onto it | `verifyCode("__proto__", "1")` returns false but sets `Object.prototype.attempts` to 1, so every object of the process now inherits `attempts`. Then `verifyCode("attempts", undefined)` returns true although nothing was issued for "attempts" | A phone with no issued code is refused and nothing outside the store is written | low; not executed (the route rejects an `undefined` code, so only the first call can be reached over HTTP) | ObjectStore.WrongProtoCodePollutesAttempts | Verification.Verify |
