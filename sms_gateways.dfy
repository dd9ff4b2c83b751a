/** The email-to-SMS carrier table. Both the notification service and the
    Gmail service carry an identical copy of it; the model keeps one. */
module SmsGateways {
  import opened Wrappers
  import opened Text

  /** Carrier name (lower case) to the gateway domain appended to a phone number. */
  const Gateways: map<string, string> := map[
    "att" := "@txt.att.net",
    "verizon" := "@vtext.com",
    "tmobile" := "@tmomail.net",
    "sprint" := "@messaging.sprintpcs.com",
    "boost" := "@smsmyboostmobile.com",
    "cricket" := "@sms.cricketwireless.net",
    "uscellular" := "@email.uscc.net",
    "metropcs" := "@mymetropcs.com"
  ]

  /** The gateway address for a phone number, looking the carrier up
      case-insensitively; None for a carrier the table does not know. */
  function GatewayAddress(phone: string, carrier: string): (r: Option<string>)
    ensures r.Some? <==> Lower(carrier) in Gateways
    ensures r.Some? ==> exists suffix :: suffix in Gateways.Values && r.value == phone + suffix
  {
    if Lower(carrier) in Gateways then Some(phone + Gateways[Lower(carrier)]) else None
  }

  /** Every carrier key is lower case, so each listed carrier is accepted
      whatever its capitalisation, and spellings that differ only in case
      reach the same gateway. */
  lemma GatewayCaseInsensitive(phone: string, c1: string, c2: string)
    requires Lower(c1) == Lower(c2)
    ensures GatewayAddress(phone, c1) == GatewayAddress(phone, c2)
    ensures c1 in Gateways ==> GatewayAddress(phone, c1) == Some(phone + Gateways[c1])
  {
    if c1 in Gateways {
      KeyIsLowerCase(c1);
      LowerOfLowerCase(c1);
    }
  }

  lemma KeyIsLowerCase(c: string)
    requires c in Gateways
    ensures IsLowerCase(c)
  {
    var keys := ["att", "verizon", "tmobile", "sprint", "boost", "cricket", "uscellular", "metropcs"];
    assert Gateways.Keys == set k | k in keys;
    var i :| 0 <= i < |keys| && keys[i] == c;
    assert IsLowerCase(keys[i]);
  }
}
