/**
  The delivery gateway boundary of `sendVerificationCode` and the
  classification of its failures into the fixed user-facing messages
  (server/utils/whatsapp.js, the catch block). The provider call and the
  ten-second timer that races it are not modelled: their combined outcome is
  an input, either a delivered message id or a thrown error carrying an
  optional numeric provider code and a message.
 */
module Gateway {
  import opened Wrappers
  import opened Text

  datatype GatewayResult =
    | Delivered(sid: string)
    | Rejected(code: Option<int>, message: string)

  /** The error the ten-second timer rejects with when it wins the race. */
  const TimedOut: GatewayResult := Rejected(None, "Request timeout")

  /** The classes of failure the catch block distinguishes. */
  datatype ErrorKind =
    | InvalidFormat
    | NotWhatsApp
    | NotEnabled
    | PolicyViolation
    | Timeout
    | NetworkFailure
    | AuthFailure
    | Generic

  /** The message of the error `sendVerificationCode` finally throws. Each
      kind's message has a length of its own, so no two kinds share one.
      Each message is the source's single literal, written in pieces only
      so that the verifier counts its characters cheaply. */
  function UserMessage(k: ErrorKind): (m: string)
    ensures |m| == LengthOf(k)
  {
    match k
    case InvalidFormat => "Invalid phone number " + "format. Please " + "include country " + "code (e.g., " + "+1234567890)"
    case NotWhatsApp => "Phone number is " + "not a valid " + "WhatsApp number"
    case NotEnabled => "WhatsApp messaging " + "is not enabled " + "for this account"
    case PolicyViolation => "Message content " + "violates WhatsApp " + "policies"
    case Timeout => "Request timeout. " + "Please check your " + "internet connection " + "and try again"
    case NetworkFailure => "Network error. " + "Please check your " + "internet connection"
    case AuthFailure => "Twilio authentication " + "failed. Please check " + "your credentials"
    case Generic => "Failed to send " + "WhatsApp code"
  }

  /** The provider's numeric error codes the catch block recognises. */
  const ProviderCodes: map<int, ErrorKind> :=
    map[21211 := InvalidFormat, 21214 := NotWhatsApp, 21608 := NotEnabled, 21610 := PolicyViolation]

  predicate IsProviderCode(code: Option<int>) {
    code.Some? && code.value in ProviderCodes
  }

  predicate MentionsTimeout(message: string) {
    Includes(message, "timeout")
  }

  predicate MentionsNetwork(message: string) {
    Includes(message, "ENOTFOUND") || Includes(message, "ECONNREFUSED")
  }

  predicate MentionsAuth(message: string) {
    Includes(message, "authentication")
  }

  /** The catch block's chain of tests, in its order: `error.code === …`
      four times, then `error.message.includes(…)`. */
  function Classify(code: Option<int>, message: string): (k: ErrorKind)
    ensures IsProviderCode(code) ==> k == ProviderCodes[code.value]
    ensures k in {Timeout, NetworkFailure, AuthFailure} ==> !IsProviderCode(code)
    ensures k == Generic <==>
      !IsProviderCode(code) && !MentionsTimeout(message) && !MentionsNetwork(message) && !MentionsAuth(message)
    // Without a recognised code the message decides: timeout, then network, then authentication.
    ensures !IsProviderCode(code) && MentionsTimeout(message) ==> k == Timeout
    ensures !IsProviderCode(code) && !MentionsTimeout(message) && MentionsNetwork(message) ==> k == NetworkFailure
    ensures !IsProviderCode(code) && !MentionsTimeout(message) && !MentionsNetwork(message) && MentionsAuth(message) ==>
      k == AuthFailure
  {
    if code == Some(21211) then InvalidFormat
    else if code == Some(21214) then NotWhatsApp
    else if code == Some(21608) then NotEnabled
    else if code == Some(21610) then PolicyViolation
    else if MentionsTimeout(message) then Timeout
    else if MentionsNetwork(message) then NetworkFailure
    else if MentionsAuth(message) then AuthFailure
    else Generic
  }

  /** A message rule of the table-driven reading: any needle found selects the kind. */
  datatype Rule = Rule(needles: seq<string>, kind: ErrorKind)

  const MessageRules: seq<Rule> := [
    Rule(["timeout"], Timeout),
    Rule(["ENOTFOUND", "ECONNREFUSED"], NetworkFailure),
    Rule(["authentication"], AuthFailure)
  ]

  /** Some needle of the list occurs in the message. */
  predicate AnyNeedle(message: string, needles: seq<string>) {
    |needles| > 0 && (Includes(message, needles[0]) || AnyNeedle(message, needles[1..]))
  }

  /** The kind of the first rule that fires, if any does. */
  function FirstRule(rules: seq<Rule>, message: string): (r: Option<ErrorKind>)
    ensures r.None? <==> forall i :: 0 <= i < |rules| ==> !AnyNeedle(message, rules[i].needles)
    ensures r.Some? ==> exists i ::
      && 0 <= i < |rules|
      && AnyNeedle(message, rules[i].needles)
      && rules[i].kind == r.value
      && (forall j :: 0 <= j < i ==> !AnyNeedle(message, rules[j].needles))
  {
    if |rules| == 0 then None
    else if AnyNeedle(message, rules[0].needles) then Some(rules[0].kind)
    else
      var r := FirstRule(rules[1..], message);
      assert forall i :: 1 <= i < |rules| ==> rules[i] == rules[1..][i - 1];
      r
  }

  /** The table-driven reading: the provider code table first, then the
      message rules in order, and the generic kind when nothing matches. */
  function TableKind(code: Option<int>, message: string): ErrorKind {
    if IsProviderCode(code) then ProviderCodes[code.value]
    else match FirstRule(MessageRules, message)
      case Some(k) => k
      case None => Generic
  }

  /** The chain of tests is exactly the table-driven classification. */
  lemma ClassifyIsTableDriven(code: Option<int>, message: string)
    ensures Classify(code, message) == TableKind(code, message)
  {
    if !IsProviderCode(code) {
      var rules := MessageRules;
      assert AnyNeedle(message, rules[0].needles) == MentionsTimeout(message) by {
        assert rules[0].needles[1..] == [];
      }
      assert AnyNeedle(message, rules[1].needles) == MentionsNetwork(message) by {
        var needles := rules[1].needles;
        assert needles[1..] == ["ECONNREFUSED"];
        assert AnyNeedle(message, needles[1..]) == Includes(message, "ECONNREFUSED") by {
          assert needles[1..][1..] == [];
        }
      }
      assert AnyNeedle(message, rules[2].needles) == MentionsAuth(message) by {
        assert rules[2].needles[1..] == [];
      }
      var tail2 := rules[1..][1..];
      assert tail2 == [rules[2]];
      assert FirstRule(tail2[1..], message) == None;
      assert FirstRule(tail2, message) == if MentionsAuth(message) then Some(AuthFailure) else None;
      assert FirstRule(rules[1..], message)
        == if MentionsNetwork(message) then Some(NetworkFailure) else FirstRule(tail2, message);
    }
  }

  /** The timer's rejection is reported as a timeout. */
  lemma TimedOutIsTimeout()
    ensures Classify(TimedOut.code, TimedOut.message) == Timeout
  {
  }

  /** Each kind has its own message, so the thrown message identifies the kind. */
  lemma UserMessageInjective(a: ErrorKind, b: ErrorKind)
    ensures UserMessage(a) == UserMessage(b) <==> a == b
  {
    if UserMessage(a) == UserMessage(b) {
      assert LengthOf(a) == LengthOf(b);
    }
  }

  /** The length of each message, distinct for every kind. */
  function LengthOf(k: ErrorKind): nat {
    match k
    case InvalidFormat => 76
    case NotWhatsApp => 43
    case NotEnabled => 50
    case PolicyViolation => 42
    case Timeout => 68
    case NetworkFailure => 52
    case AuthFailure => 59
    case Generic => 28
  }
}
