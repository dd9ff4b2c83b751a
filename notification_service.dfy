/** Notification routing: which channels the configuration makes available,
    in their fixed order, and the result map of one send, with one entry per
    requested channel. The senders themselves (Twilio, the webhooks, Gmail's
    send call) are abstract replies. */
module Notifications {
  import opened Wrappers
  import opened Text
  import opened SmsGateways
  import Gmail

  datatype NotificationType = SmsTwilio | SmsGmail | Pushbullet | Pushover | Discord | Slack

  /** The enum's string value, the key of a result map. */
  function Value(t: NotificationType): string {
    match t
    case SmsTwilio => "sms_twilio"
    case SmsGmail => "sms_gmail"
    case Pushbullet => "pushbullet"
    case Pushover => "pushover"
    case Discord => "discord"
    case Slack => "slack"
  }

  /** Distinct channels have distinct values, so a result key names one channel. */
  lemma ValueInjective(t: NotificationType, u: NotificationType)
    ensures Value(t) == Value(u) <==> t == u
  {
  }

  /** Every setting is optional. */
  datatype NotificationConfig = NotificationConfig(
    twilioAccountSid: Option<string>,
    twilioAuthToken: Option<string>,
    twilioFromNumber: Option<string>,
    twilioToNumber: Option<string>,
    gmailSmsPhoneNumber: Option<string>,
    gmailSmsCarrier: Option<string>,
    pushbulletApiKey: Option<string>,
    pushoverUserKey: Option<string>,
    pushoverAppToken: Option<string>,
    discordWebhookUrl: Option<string>,
    slackWebhookUrl: Option<string>)

  /** Python truthiness of an optional string: present and non-empty. */
  predicate Truthy(o: Option<string>) {
    o.Some? && o.value != ""
  }

  /** The settings each channel needs, every one of them truthy; Gmail SMS
      also needs a Gmail service. */
  predicate Configured(config: NotificationConfig, hasGmail: bool, t: NotificationType) {
    match t
    case SmsTwilio =>
      Truthy(config.twilioAccountSid) && Truthy(config.twilioAuthToken)
      && Truthy(config.twilioFromNumber) && Truthy(config.twilioToNumber)
    case SmsGmail => hasGmail && Truthy(config.gmailSmsPhoneNumber) && Truthy(config.gmailSmsCarrier)
    case Pushbullet => Truthy(config.pushbulletApiKey)
    case Pushover => Truthy(config.pushoverUserKey) && Truthy(config.pushoverAppToken)
    case Discord => Truthy(config.discordWebhookUrl)
    case Slack => Truthy(config.slackWebhookUrl)
  }

  /** The position of a channel in the fixed order of the checks. */
  function Rank(t: NotificationType): nat {
    match t
    case SmsTwilio => 0
    case SmsGmail => 1
    case Pushbullet => 2
    case Pushover => 3
    case Discord => 4
    case Slack => 5
  }

  /** The channel when its check passes, else nothing. */
  function If(b: bool, t: NotificationType): (r: seq<NotificationType>)
    ensures forall x :: x in r <==> b && x == t
  {
    if b then [t] else []
  }

  /** _get_available_methods: one check per channel, appended in order. */
  function AvailableMethods(config: NotificationConfig, hasGmail: bool): seq<NotificationType> {
    If(Configured(config, hasGmail, SmsTwilio), SmsTwilio)
    + If(Configured(config, hasGmail, SmsGmail), SmsGmail)
    + If(Configured(config, hasGmail, Pushbullet), Pushbullet)
    + If(Configured(config, hasGmail, Pushover), Pushover)
    + If(Configured(config, hasGmail, Discord), Discord)
    + If(Configured(config, hasGmail, Slack), Slack)
  }

  /** Channels strictly in the fixed order, hence each at most once. */
  predicate InOrder(s: seq<NotificationType>) {
    forall i, j :: 0 <= i < j < |s| ==> Rank(s[i]) < Rank(s[j])
  }

  /** A channel is available exactly when it is configured, and the
      available channels come in the fixed order, each once. */
  lemma AvailableMethodsSpec(config: NotificationConfig, hasGmail: bool)
    ensures forall t :: t in AvailableMethods(config, hasGmail) <==> Configured(config, hasGmail, t)
    ensures InOrder(AvailableMethods(config, hasGmail))
  {
    forall t ensures t in AvailableMethods(config, hasGmail) <==> Configured(config, hasGmail, t) {
      AvailableIffConfigured(config, hasGmail, t);
    }
    AvailableMethodsInOrder(config, hasGmail);
  }

  /** Each channel's own check decides whether it is in the list. */
  lemma AvailableIffConfigured(config: NotificationConfig, hasGmail: bool, t: NotificationType)
    ensures t in AvailableMethods(config, hasGmail) <==> Configured(config, hasGmail, t)
  {
    assert t in AvailableMethods(config, hasGmail) <==>
      || t in If(Configured(config, hasGmail, SmsTwilio), SmsTwilio)
      || t in If(Configured(config, hasGmail, SmsGmail), SmsGmail)
      || t in If(Configured(config, hasGmail, Pushbullet), Pushbullet)
      || t in If(Configured(config, hasGmail, Pushover), Pushover)
      || t in If(Configured(config, hasGmail, Discord), Discord)
      || t in If(Configured(config, hasGmail, Slack), Slack);
    match t
    case SmsTwilio =>
    case SmsGmail =>
    case Pushbullet =>
    case Pushover =>
    case Discord =>
    case Slack =>
  }

  /** The list built one check at a time, each append keeping the order. */
  lemma AvailableMethodsInOrder(config: NotificationConfig, hasGmail: bool)
    ensures InOrder(AvailableMethods(config, hasGmail))
  {
    var s := If(Configured(config, hasGmail, SmsTwilio), SmsTwilio);
    s := AppendInOrder(s, Configured(config, hasGmail, SmsGmail), SmsGmail);
    s := AppendInOrder(s, Configured(config, hasGmail, Pushbullet), Pushbullet);
    s := AppendInOrder(s, Configured(config, hasGmail, Pushover), Pushover);
    s := AppendInOrder(s, Configured(config, hasGmail, Discord), Discord);
    s := AppendInOrder(s, Configured(config, hasGmail, Slack), Slack);
  }

  /** One conditional append after channels of lower rank keeps the order. */
  lemma AppendInOrder(s: seq<NotificationType>, b: bool, t: NotificationType) returns (r: seq<NotificationType>)
    requires InOrder(s) && forall x :: x in s ==> Rank(x) < Rank(t)
    ensures r == s + If(b, t) && InOrder(r)
    ensures forall x :: x in r <==> x in s || (b && x == t)
    ensures forall x :: x in r ==> Rank(x) <= Rank(t)
  {
    r := s + If(b, t);
  }

  // ---------------------------------------------------------------------
  // send_notification

  /** What a sender call comes back with: an HTTP status code (for Twilio,
      any answer means the message was created), or an exception. */
  datatype Reply = Status(code: int) | Raised

  /** The reply to the send for channel `t` at position `i` of the request. */
  type Replies = (NotificationType, nat) -> Reply

  const OK: int := 200
  const NoContent: int := 204

  /** _send_sms_gmail: false without a Gmail service; a missing carrier makes
      the carrier check raise, which is caught as false; otherwise the Gmail
      service's own SMS send. */
  function GmailSms(config: NotificationConfig, gmail: Option<Gmail.GmailApi>, message: string): (ok: bool)
    ensures ok ==> gmail.Some? && config.gmailSmsCarrier.Some? && Lower(config.gmailSmsCarrier.value) in Gateways
  {
    match (gmail, config.gmailSmsCarrier)
    case (Some(api), Some(carrier)) =>
      Gmail.Sent(Gmail.SendSmsNotification(api, PyStr(config.gmailSmsPhoneNumber), carrier, message))
    case _ => false
  }

  /** Each channel's success predicate; an exception is never a success. */
  function Succeeded(t: NotificationType, i: nat, config: NotificationConfig, gmail: Option<Gmail.GmailApi>,
                     message: string, replies: Replies): (ok: bool)
    ensures t != SmsGmail && replies(t, i) == Raised ==> !ok
    ensures t in {Pushbullet, Pushover, Slack} ==> (ok <==> replies(t, i) == Status(OK))
    ensures t == Discord ==> (ok <==> replies(t, i) == Status(NoContent))
  {
    match t
    case SmsTwilio => replies(t, i).Status?
    case SmsGmail => GmailSms(config, gmail, message)
    case Pushbullet => replies(t, i) == Status(OK)
    case Pushover => replies(t, i) == Status(OK)
    case Discord => replies(t, i) == Status(NoContent)
    case Slack => replies(t, i) == Status(OK)
  }

  /** The result map after the sends of `ms`, in order: a later send of the
      same channel overwrites the earlier entry. */
  function Results(ms: seq<NotificationType>, config: NotificationConfig, gmail: Option<Gmail.GmailApi>,
                   message: string, replies: Replies): map<string, bool>
  {
    if ms == [] then map[]
    else
      var i := |ms| - 1;
      Results(ms[..i], config, gmail, message, replies)[Value(ms[i]) := Succeeded(ms[i], i, config, gmail, message, replies)]
  }

  /** The methods a send uses: the given list, or the available ones. */
  function Requested(config: NotificationConfig, gmail: Option<Gmail.GmailApi>,
                     methods: Option<seq<NotificationType>>): seq<NotificationType>
  {
    match methods
    case Some(ms) => ms
    case None => AvailableMethods(config, gmail.Some?)
  }

  /** The result map has one key per requested channel and no other. */
  lemma {:induction false} ResultsKeys(ms: seq<NotificationType>, config: NotificationConfig,
                                       gmail: Option<Gmail.GmailApi>, message: string, replies: Replies)
    ensures Results(ms, config, gmail, message, replies).Keys == set t | t in ms :: Value(t)
    decreases |ms|
  {
    if ms != [] {
      var n := |ms| - 1;
      var init := ms[..n];
      ResultsKeys(init, config, gmail, message, replies);
      assert ms == init + [ms[n]];
      assert (set t | t in ms :: Value(t)) == (set t | t in init :: Value(t)) + {Value(ms[n])};
    }
  }

  /** A channel has an entry exactly when it was requested. */
  lemma ResultsHasChannel(ms: seq<NotificationType>, config: NotificationConfig, gmail: Option<Gmail.GmailApi>,
                          message: string, replies: Replies, t: NotificationType)
    ensures Value(t) in Results(ms, config, gmail, message, replies) <==> t in ms
  {
    ResultsKeys(ms, config, gmail, message, replies);
    if Value(t) in Results(ms, config, gmail, message, replies) {
      var u :| u in ms && Value(u) == Value(t);
      ValueInjective(t, u);
    }
  }

  /** A channel's entry is the outcome of its last send. */
  lemma {:induction false} ResultsLast(ms: seq<NotificationType>, i: nat, config: NotificationConfig,
                                       gmail: Option<Gmail.GmailApi>, message: string, replies: Replies)
    requires i < |ms| && forall j :: i < j < |ms| ==> ms[j] != ms[i]
    ensures Value(ms[i]) in Results(ms, config, gmail, message, replies)
    ensures Results(ms, config, gmail, message, replies)[Value(ms[i])]
         == Succeeded(ms[i], i, config, gmail, message, replies)
    decreases |ms|
  {
    var n := |ms| - 1;
    if i < n {
      var init := ms[..n];
      assert init[i] == ms[i];
      ResultsLast(init, i, config, gmail, message, replies);
      ValueInjective(ms[i], ms[n]);
    }
  }

  /** With no methods given, exactly the configured channels are tried. */
  lemma DefaultSendsAvailable(config: NotificationConfig, gmail: Option<Gmail.GmailApi>, message: string,
                              replies: Replies)
    ensures var r := Results(Requested(config, gmail, None), config, gmail, message, replies);
      forall t :: Value(t) in r <==> Configured(config, gmail.Some?, t)
  {
    AvailableMethodsSpec(config, gmail.Some?);
    forall t ensures Value(t) in Results(AvailableMethods(config, gmail.Some?), config, gmail, message, replies)
                     <==> Configured(config, gmail.Some?, t) {
      ResultsHasChannel(AvailableMethods(config, gmail.Some?), config, gmail, message, replies, t);
    }
  }

  /** One more channel sent: its outcome is recorded under its value. */
  lemma ResultsNext(ms: seq<NotificationType>, i: nat, config: NotificationConfig, gmail: Option<Gmail.GmailApi>,
                    message: string, replies: Replies)
    requires i < |ms|
    ensures Results(ms[..i + 1], config, gmail, message, replies)
         == Results(ms[..i], config, gmail, message, replies)[Value(ms[i]) := Succeeded(ms[i], i, config, gmail,
                                                                                        message, replies)]
  {
    assert ms[..i + 1][..i] == ms[..i];
  }

  /** The send loop; the title only reaches the senders, which are abstract. */
  method SendNotification(config: NotificationConfig, gmail: Option<Gmail.GmailApi>, message: string,
                          methods: Option<seq<NotificationType>>, replies: Replies)
    returns (results: map<string, bool>)
    ensures results == Results(Requested(config, gmail, methods), config, gmail, message, replies)
  {
    var ms := if methods.None? then AvailableMethods(config, gmail.Some?) else methods.value;
    results := map[];
    var i := 0;
    while i < |ms|
      invariant 0 <= i <= |ms|
      invariant results == Results(ms[..i], config, gmail, message, replies)
    {
      var m := ms[i];
      var ok := Succeeded(m, i, config, gmail, message, replies);
      ResultsNext(ms, i, config, gmail, message, replies);
      results := results[Value(m) := ok];
      i := i + 1;
    }
    assert ms[..i] == ms;
  }
}
