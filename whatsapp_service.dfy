/**
 * The Twilio WhatsApp sender: E.164 normalisation of destinations, the
 * sender-prefix rule applied at construction, and the request that
 * `send_message` hands to the Twilio client.
 */
module WhatsApp {
  import opened Wrappers
  import opened Text

  const Prefix := "whatsapp:"
  const SandboxFrom := "whatsapp:+14155238886"

  /** The digits of `s`, in order (`"".join(ch for ch in s if ch.isdigit())`). */
  function KeepDigits(s: string): (r: string)
    ensures AllDigits(r) && |r| <= |s|
    ensures AllDigits(s) ==> r == s
  {
    if s == [] then []
    else
      assert s == [s[0]] + s[1..];
      (if IsDigit(s[0]) then [s[0]] else []) + KeepDigits(s[1..])
  }

  /** Every digit of the input is kept as often as it occurs, and nothing else. */
  lemma {:induction false} KeepDigitsCounts(s: string, c: char)
    ensures multiset(KeepDigits(s))[c] == if IsDigit(c) then multiset(s)[c] else 0
  {
    if s != [] {
      assert s == [s[0]] + s[1..];
      KeepDigitsCounts(s[1..], c);
    }
  }

  /** Filtering keeps order: the digits of a concatenation are the digits of each part, in turn. */
  lemma {:induction false} KeepDigitsConcat(a: string, b: string)
    ensures KeepDigits(a + b) == KeepDigits(a) + KeepDigits(b)
  {
    if a != [] {
      var head := if IsDigit(a[0]) then [a[0]] else [];
      assert (a + b)[0] == a[0] && (a + b)[1..] == a[1..] + b;
      assert KeepDigits(a + b) == head + KeepDigits(a[1..] + b);
      KeepDigitsConcat(a[1..], b);
      assert KeepDigits(a) == head + KeepDigits(a[1..]);
      assert head + (KeepDigits(a[1..]) + KeepDigits(b)) == (head + KeepDigits(a[1..])) + KeepDigits(b);
    } else {
      assert a + b == b;
    }
  }

  /** `_as_whatsapp_e164`: empty, or a `whatsapp:`-prefixed destination. */
  function AsE164(number: Option<string>): (r: string)
    ensures r == "" || StartsWith(r, Prefix)
    ensures Strip(OrElse(number, "")) == "" ==> r == ""
  {
    var n := Strip(OrElse(number, ""));
    if n == "" then ""
    else if StartsWith(n, Prefix) then n
    else if StartsWith(n, "+") then Prefix + n
    else
      var digits := KeepDigits(n);
      if digits == "" then "" else Prefix + "+" + digits
  }

  /** Each branch of the normalisation, stated against its input. */
  lemma AsE164Cases(number: Option<string>)
    ensures var n := Strip(OrElse(number, ""));
      && (n != "" && StartsWith(n, Prefix) ==> AsE164(number) == n)
      && (n != "" && !StartsWith(n, Prefix) && StartsWith(n, "+") ==> AsE164(number) == Prefix + n)
      && (n != "" && !StartsWith(n, Prefix) && !StartsWith(n, "+") ==>
            AsE164(number) == (if KeepDigits(n) == "" then "" else Prefix + "+" + KeepDigits(n)))
  {
  }

  /** Normalising an already normalised destination changes nothing. */
  lemma AsE164Idempotent(number: Option<string>)
    ensures AsE164(Some(AsE164(number))) == AsE164(number)
  {
    var r := AsE164(number);
    if r != "" {
      NormalisedIsTrimmed(number);
      StripTrimmed(r, IsSpace);
      assert OrElse(Some(r), "") == r;
    }
  }

  /** A normalised destination has no surrounding whitespace. */
  lemma NormalisedIsTrimmed(number: Option<string>)
    ensures Trimmed(AsE164(number), IsSpace)
  {
    var n := Strip(OrElse(number, ""));
    if n != "" && !StartsWith(n, Prefix) {
      if StartsWith(n, "+") {
        PrefixedTrimmed(n);
      } else {
        var digits := KeepDigits(n);
        if digits != "" {
          var x := "+" + digits;
          assert x[|x| - 1] == digits[|digits| - 1];
          assert Prefix + "+" + digits == Prefix + x;
          PrefixedTrimmed(x);
        }
      }
    }
  }

  lemma PrefixedTrimmed(x: string)
    requires x != [] && !IsSpace(x[|x| - 1])
    ensures Trimmed(Prefix + x, IsSpace)
  {
    var r := Prefix + x;
    assert r[0] == Prefix[0];
    assert r[|r| - 1] == x[|x| - 1];
  }

  /** The sender after `__init__`: the configured number, or the sandbox one when it lacks the prefix. */
  function FromNumber(configured: Option<string>): (r: string)
    ensures StartsWith(r, Prefix)
    ensures StartsWith(Strip(OrElse(configured, SandboxFrom)), Prefix) ==> r == Strip(OrElse(configured, SandboxFrom))
  {
    var f := Strip(OrElse(configured, SandboxFrom));
    SandboxHasPrefix();
    if StartsWith(f, Prefix) then f else SandboxFrom
  }

  lemma SandboxHasPrefix()
    ensures StartsWith(SandboxFrom, Prefix)
  {
    assert SandboxFrom[..|Prefix|] == Prefix;
  }

  /** The `kwargs` of `client.messages.create`, or `None` when the destination is invalid. */
  function SendRequest(toNumber: Option<string>, body: string, messagingServiceSid: string, fromNumber: string)
    : (r: Option<map<string, string>>)
    ensures r.None? <==> AsE164(toNumber) == ""
    ensures r.Some? ==> && "to" in r.value && r.value["to"] == AsE164(toNumber)
                        && "body" in r.value && r.value["body"] == body
                        && (("messaging_service_sid" in r.value) != ("from_" in r.value))
                        && r.value.Keys <= {"to", "body", "messaging_service_sid", "from_"}
    ensures r.Some? && messagingServiceSid != "" ==>
      "messaging_service_sid" in r.value && r.value["messaging_service_sid"] == messagingServiceSid
    ensures r.Some? && messagingServiceSid == "" ==> "from_" in r.value && r.value["from_"] == fromNumber
  {
    var to := AsE164(toNumber);
    if to == "" then None
    else if messagingServiceSid != "" then
      Some(map["to" := to, "body" := body, "messaging_service_sid" := messagingServiceSid])
    else Some(map["to" := to, "body" := body, "from_" := fromNumber])
  }

  /** The sender half of a Twilio request: the messaging service when configured, else the `from_` number. */
  datatype Sender = ViaService(sid: string) | ViaNumber(number: string)

  function SenderOf(messagingServiceSid: string, fromNumber: string): Sender {
    if messagingServiceSid != "" then ViaService(messagingServiceSid) else ViaNumber(fromNumber)
  }

  /** The `kwargs` of the template call: destination, content SID, content variables and sender. */
  datatype TemplateRequest = TemplateRequest(to: string, contentSid: string,
                                             contentVariables: map<string, string>, sender: Sender)

  /** `send_template_message`'s request, or `None` when the destination is invalid. */
  function SendTemplateRequest(toNumber: Option<string>, contentSid: string, contentVariables: map<string, string>,
                               messagingServiceSid: string, fromNumber: string)
    : (r: Option<TemplateRequest>)
    ensures r.None? <==> AsE164(toNumber) == ""
    ensures r.Some? ==> && r.value.to == AsE164(toNumber) && StartsWith(r.value.to, Prefix)
                        && r.value.contentSid == contentSid && r.value.contentVariables == contentVariables
  {
    var to := AsE164(toNumber);
    if to == "" then None
    else Some(TemplateRequest(to, contentSid, contentVariables, SenderOf(messagingServiceSid, fromNumber)))
  }

  /** The template call and the plain call go to the same destination through the same sender. */
  lemma TemplateMatchesPlainMessage(toNumber: Option<string>, body: string, contentSid: string,
                                    contentVariables: map<string, string>, messagingServiceSid: string,
                                    fromNumber: string)
    ensures var plain := SendRequest(toNumber, body, messagingServiceSid, fromNumber);
            var tpl := SendTemplateRequest(toNumber, contentSid, contentVariables, messagingServiceSid, fromNumber);
      && (plain.None? <==> tpl.None?)
      && (tpl.Some? ==> plain.value["to"] == tpl.value.to)
      && (tpl.Some? && tpl.value.sender.ViaService? ==> plain.value["messaging_service_sid"] == tpl.value.sender.sid)
      && (tpl.Some? && tpl.value.sender.ViaNumber? ==> plain.value["from_"] == tpl.value.sender.number)
  {
  }

  /** The environment `__init__` reads. */
  datatype Env = Env(accountSid: Option<string>, authToken: Option<string>,
                     whatsappFrom: Option<string>, messagingServiceSid: Option<string>)

  class WhatsAppService {
    var accountSid: string
    var authToken: string
    var fromNumber: string
    var messagingServiceSid: string

    /** `__init__`: strip every setting, and force the sandbox sender when the configured one lacks `whatsapp:`. */
    constructor (env: Env)
      ensures accountSid == Strip(OrElse(env.accountSid, ""))
      ensures authToken == Strip(OrElse(env.authToken, ""))
      ensures messagingServiceSid == Strip(OrElse(env.messagingServiceSid, ""))
      ensures fromNumber == FromNumber(env.whatsappFrom)
      ensures StartsWith(fromNumber, Prefix)
    {
      accountSid := Strip(OrElse(env.accountSid, ""));
      authToken := Strip(OrElse(env.authToken, ""));
      var configured := Strip(OrElse(env.whatsappFrom, SandboxFrom));
      messagingServiceSid := Strip(OrElse(env.messagingServiceSid, ""));
      if !StartsWith(configured, Prefix) {
        configured := SandboxFrom;
      }
      fromNumber := configured;
    }

    /**
     * `send_message`: no client call when the destination normalises to "";
     * otherwise the request is built and the client's reply (the message SID,
     * `None` when Twilio raises) is returned.
     */
    method SendMessage(toNumber: Option<string>, body: string, reply: Option<string>)
      returns (request: Option<map<string, string>>, sid: Option<string>)
      ensures request == SendRequest(toNumber, body, messagingServiceSid, fromNumber)
      ensures sid == if request.None? then None else reply
    {
      var toWa := AsE164(toNumber);
      if toWa == "" {
        return None, None;
      }
      var kwargs: map<string, string> := map["to" := toWa, "body" := body];
      if messagingServiceSid != "" {
        kwargs := kwargs["messaging_service_sid" := messagingServiceSid];
      } else {
        kwargs := kwargs["from_" := fromNumber];
      }
      request := Some(kwargs);
      sid := reply;
    }

    /** `send_template_message`: as `send_message`, with a content template in place of a body. */
    method SendTemplateMessage(toNumber: Option<string>, contentSid: string, contentVariables: map<string, string>,
                               reply: Option<string>)
      returns (request: Option<TemplateRequest>, sid: Option<string>)
      ensures request == SendTemplateRequest(toNumber, contentSid, contentVariables, messagingServiceSid, fromNumber)
      ensures sid == if request.None? then None else reply
    {
      var toWa := AsE164(toNumber);
      if toWa == "" {
        return None, None;
      }
      var sender := if messagingServiceSid != "" then ViaService(messagingServiceSid) else ViaNumber(fromNumber);
      request := Some(TemplateRequest(toWa, contentSid, contentVariables, sender));
      sid := reply;
    }
  }
}
