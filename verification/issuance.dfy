/**
  `sendVerificationCode` of server/utils/whatsapp.js as one atomic transition
  of the store. The transition is atomic in the source too: Node runs it on
  one thread and the store is written before the only `await`. The clock
  reading, the random draw and the gateway's outcome (provider reply or the
  ten-second timer, whichever came first) are inputs.
 */
module Issuance {
  import opened Wrappers
  import opened Text
  import opened JsArg
  import opened CodeGen
  import opened Store
  import opened Gateway

  /** The message thrown when the provider client could not be constructed.
      Written in pieces only so that the verifier can reason about its
      characters; the value is the source's single literal. */
  const ClientMissingMessage: string :=
    "Twilio client not " + "initialized. Check " + "your environ" + "ment " + "variables."

  /** The message thrown for a missing, empty or non-string phone. */
  const InvalidPhoneMessage: string := "Invalid phone number " + "format"

  /** What would be handed to the provider: recipient address and text. */
  datatype Request = Request(to: string, body: string)

  datatype IssueOutcome = Sent(sid: string) | Failed(kind: ErrorKind)

  /** The store after the call, the request made (if the call got that
      far) and the call's result: a message id, or the kind of the error
      thrown, whose message is `UserMessage(kind)`. */
  datatype IssueResult = IssueResult(store: Store, request: Option<Request>, outcome: IssueOutcome)

  /** The `+`-prefixed form of the phone, used only for delivery: a phone
      that already has the prefix is kept as it is. */
  function FormatPhone(phone: string): (r: string)
    ensures StartsWithChar(r, '+')
    ensures |phone| <= |r| <= |phone| + 1
    ensures r[|r| - |phone|..] == phone
    ensures r == phone <==> StartsWithChar(phone, '+')
  {
    if StartsWithChar(phone, '+') then phone else "+" + phone
  }

  /** Formatting twice adds nothing. */
  lemma FormatPhoneIdempotent(phone: string)
    ensures FormatPhone(FormatPhone(phone)) == FormatPhone(phone)
  {
  }

  /** Two phones get the same delivery form exactly when they are equal or
      one is the other with the missing '+' added. */
  lemma FormatPhoneCollides(p: string, q: string)
    ensures FormatPhone(p) == FormatPhone(q) <==>
      || p == q
      || (!StartsWithChar(q, '+') && p == "+" + q)
      || (!StartsWithChar(p, '+') && q == "+" + p)
  {
  }

  /** The recipient address handed to the provider. */
  function Address(phone: string): (r: string)
    ensures |r| > |"whatsapp:"| && r[..|"whatsapp:"|] == "whatsapp:"
    ensures r[|"whatsapp:"|..] == FormatPhone(phone)
  {
    "whatsapp:" + FormatPhone(phone)
  }

  /** Two phones share a delivery address exactly when they share a
      delivery form, although they never share a store entry unless equal. */
  lemma AddressSharedExactly(p: string, q: string)
    ensures Address(p) == Address(q) <==> FormatPhone(p) == FormatPhone(q)
  {
    if Address(p) == Address(q) {
      assert Address(p)[|"whatsapp:"|..] == Address(q)[|"whatsapp:"|..];
    }
  }

  function MessageBody(code: string): (body: string)
    ensures Includes(body, code)
  {
    var prefix := "Your Share Dish verification code is: ";
    var body := prefix + code + "\n\nThis code will expire in 5 minutes.";
    assert body[|prefix|..|prefix| + |code|] == code;
    assert OccursAt(body, code, |prefix|);
    body
  }

  /** The checks made before anything is stored: a client exists and the
      phone is a non-empty string. */
  predicate Accepted(clientReady: bool, phone: Arg) {
    clientReady && NonEmptyString(phone)
  }

  function Issue(s: Store, clientReady: bool, phone: Arg, now: int, draw: Draw, gateway: GatewayResult): (r: IssueResult)
    // Rejected before the store is touched, reported with the generic message.
    ensures !Accepted(clientReady, phone) ==>
      r.store == s && r.request == None && r.outcome == Failed(Generic)
    // Accepted: the raw phone's entry is replaced by a fresh one, nothing else changes,
    // whatever the gateway then reports.
    ensures Accepted(clientReady, phone) ==>
      && r.store.Keys == s.Keys + {phone.value}
      && r.store[phone.value] == Entry(GenerateCode(draw), now + Ttl, 0)
      && SameExcept(s, r.store, phone.value)
      && r.request == Some(Request(Address(phone.value), MessageBody(GenerateCode(draw))))
    // Success exactly when accepted and delivered, carrying the provider's id.
    ensures r.outcome.Sent? <==> Accepted(clientReady, phone) && gateway.Delivered?
    ensures r.outcome.Sent? ==> r.outcome.sid == gateway.sid
    ensures Accepted(clientReady, phone) && gateway.Rejected? ==>
      r.outcome == Failed(Classify(gateway.code, gateway.message))
    ensures Valid(s) ==> Valid(r.store)
  {
    if !clientReady then
      PreconditionErrorsAreGeneric();
      IssueResult(s, None, Failed(Classify(None, ClientMissingMessage)))
    else if !NonEmptyString(phone) then
      PreconditionErrorsAreGeneric();
      IssueResult(s, None, Failed(Classify(None, InvalidPhoneMessage)))
    else
      var code := GenerateCode(draw);
      var s' := s[phone.value := Entry(code, now + Ttl, 0)];
      assert s'.Keys == s.Keys + {phone.value};
      assert Valid(s) ==> Valid(s');
      var request := Request(Address(phone.value), MessageBody(code));
      match gateway
      case Delivered(sid) => IssueResult(s', Some(request), Sent(sid))
      case Rejected(c, m) => IssueResult(s', Some(request), Failed(Classify(c, m)))
  }

  /** The two errors thrown by the entry checks mention none of the words the
      catch block looks for, so they surface as the generic message. */
  lemma PreconditionErrorsAreGeneric()
    ensures Classify(None, ClientMissingMessage) == Generic
    ensures Classify(None, InvalidPhoneMessage) == Generic
  {
    ClientMissingMentionsNothing();
    InvalidPhoneMentionsNothing();
  }

  lemma ClientMissingMentionsNothing()
    ensures !MentionsTimeout(ClientMissingMessage)
    ensures !MentionsNetwork(ClientMissingMessage)
    ensures !MentionsAuth(ClientMissingMessage)
  {
    var m := ClientMissingMessage;
    // No "im" (from "timeout"), no "au" (from "authentication"), no 'E'.
    ClientMissingHasNoIM();
    ExcludedByPair(m, "timeout", 1);
    ClientMissingHasNoAU();
    ExcludedByPair(m, "authentication", 0);
    ClientMissingHasNoE();
    ExcludedByChar(m, "ENOTFOUND", 0);
    ExcludedByChar(m, "ECONNREFUSED", 0);
  }

  lemma InvalidPhoneMentionsNothing()
    ensures !MentionsTimeout(InvalidPhoneMessage)
    ensures !MentionsNetwork(InvalidPhoneMessage)
    ensures !MentionsAuth(InvalidPhoneMessage)
  {
    var m := InvalidPhoneMessage;
    // No "ut" (from "timeout"), no 'c' (from "authentication"), no 'E'.
    InvalidPhoneLacks();
    ExcludedByPair(m, "timeout", 5);
    ExcludedByChar(m, "authentication", 8);
    ExcludedByChar(m, "ENOTFOUND", 0);
    ExcludedByChar(m, "ECONNREFUSED", 0);
  }

  lemma InvalidPhoneLacks()
    ensures !HasPair(InvalidPhoneMessage, 'u', 't')
    ensures 'c' !in InvalidPhoneMessage && 'E' !in InvalidPhoneMessage
  {
    HasPairAppend("Invalid phone number ", "format", 'u', 't');
    assert 'c' !in "Invalid phone number " && 'c' !in "format";
    assert 'E' !in "Invalid phone number " && 'E' !in "format";
  }

  lemma ClientMissingHasNoE()
    ensures 'E' !in ClientMissingMessage
  {
  }

  /** "im" does not occur in the client-missing message. */
  lemma ClientMissingHasNoIM()
    ensures !HasPair(ClientMissingMessage, 'i', 'm')
  {
    var a, b, c, d, e := "Twilio client not ", "initialized. Check ", "your environ", "ment ", "variables.";
    ClientMissingPieces('i', 'm');
    // Only "ment " has an 'm', and it has no 'i'.
    assert 'm' !in a && 'm' !in b && 'm' !in c && 'i' !in d && 'm' !in e;
    AbsentCharNoPair(a, 'i', 'm');
    AbsentCharNoPair(b, 'i', 'm');
    AbsentCharNoPair(c, 'i', 'm');
    AbsentCharNoPair(d, 'i', 'm');
    AbsentCharNoPair(e, 'i', 'm');
  }


  /** "au" does not occur in the client-missing message. */
  lemma ClientMissingHasNoAU()
    ensures !HasPair(ClientMissingMessage, 'a', 'u')
  {
    var a, b, c, d, e := "Twilio client not ", "initialized. Check ", "your environ", "ment ", "variables.";
    ClientMissingPieces('a', 'u');
    // Only "your environ" has a 'u', and it has no 'a'.
    assert 'u' !in a && 'u' !in b && 'a' !in c && 'u' !in d && 'u' !in e;
    AbsentCharNoPair(a, 'a', 'u');
    AbsentCharNoPair(b, 'a', 'u');
    AbsentCharNoPair(c, 'a', 'u');
    AbsentCharNoPair(d, 'a', 'u');
    AbsentCharNoPair(e, 'a', 'u');
  }


  /** A pair occurs in the client-missing message only inside one of its
      pieces or across a seam between two. */
  lemma ClientMissingPieces(x: char, y: char)
    ensures var a, b, c, d, e := "Twilio client not ", "initialized. Check ", "your environ", "ment ", "variables.";
      HasPair(ClientMissingMessage, x, y) <==>
        || HasPair(a, x, y) || HasPair(b, x, y) || HasPair(c, x, y) || HasPair(d, x, y) || HasPair(e, x, y)
        || (x, y) == (a[|a| - 1], b[0]) || (x, y) == (b[|b| - 1], c[0])
        || (x, y) == (c[|c| - 1], d[0]) || (x, y) == (d[|d| - 1], e[0])
  {
    var a, b, c, d, e := "Twilio client not ", "initialized. Check ", "your environ", "ment ", "variables.";
    HasPairAppend(a, b, x, y);
    HasPairAppend(a + b, c, x, y);
    HasPairAppend(a + b + c, d, x, y);
    HasPairAppend(a + b + c + d, e, x, y);
  }
}
