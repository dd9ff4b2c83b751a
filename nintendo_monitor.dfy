/** The Nintendo Switch 2 email watcher: the mail query, keyword matching,
    the three-way classification of an email, duplicate suppression through
    the memory store, alert routing and the memories each analysis writes.
    The alert sinks (file, webhook) are an abstract delivery call and the
    dispatched alerts are kept as a log. */
module NintendoMonitor {
  import opened Wrappers
  import opened Text
  import opened MemoryTypes
  import opened ChromaMemory
  import opened MemoryAgent
  import Gmail

  /** One alert channel: `console`, `file`, `webhook` or `email`, and its
      target (a path, a URL, an address). */
  datatype AlertConfig = AlertConfig(alertMethod: string, target: string, enabled: bool)

  /** An alert configuration is enabled unless said otherwise. */
  function NewAlertConfig(alertMethod: string, target: string): (c: AlertConfig)
    ensures c.alertMethod == alertMethod && c.target == target && c.enabled
  {
    AlertConfig(alertMethod, target, true)
  }

  const NintendoSenders: seq<string> :=
    ["nintendo.com", "nintendo.co.jp", "nintendo-europe.com", "mynintendo.com", "nintendo.net", "gmail.com"]

  const Switch2Keywords: seq<string> :=
    ["switch 2", "nintendo switch 2", "switch successor", "new nintendo switch", "next nintendo switch",
     "switch pro", "nintendo nx"]

  const PurchaseKeywords: seq<string> :=
    ["pre-order", "preorder", "available now", "purchase", "buy now", "order", "sale", "release", "launch"]

  /** How many messages one check lists. */
  const MaxEmails: nat := 50

  // ---------------------------------------------------------------------
  // _check_for_switch2_emails: the query

  /** One `from:` term per sender, in list order. */
  function SenderTerms(senders: seq<string>): (terms: seq<string>)
    ensures |terms| == |senders|
    ensures forall i :: 0 <= i < |terms| ==> terms[i] == Gmail.FromQuery(senders[i])
  {
    seq(|senders|, i requires 0 <= i < |senders| => Gmail.FromQuery(senders[i]))
  }

  /** `(from:a OR from:b …) after:YYYY/MM/DD`, the date being yesterday's. */
  function MailQuery(senders: seq<string>, yesterday: Date): string {
    "(" + Join(SenderTerms(senders), " OR ") + ") after:" + FormatDate(yesterday)
  }

  /** Each sender term names its sender, and the query ends with the
      date filter, whose date reads back from the query's last ten characters. */
  lemma MailQuerySpec(senders: seq<string>, yesterday: Date)
    requires InRange(yesterday)
    ensures forall i :: 0 <= i < |senders| ==>
      Gmail.OperandOf("from:", SenderTerms(senders)[i]) == Some(senders[i])
    ensures var q := MailQuery(senders, yesterday);
      && |q| >= 19 && q[0] == '('
      && q[|q| - 18..|q| - 10] == ") after:"
      && ParseDate(q[|q| - 10..]) == Some(yesterday)
  {
    forall i | 0 <= i < |senders|
      ensures Gmail.OperandOf("from:", SenderTerms(senders)[i]) == Some(senders[i])
    {
      assert SenderTerms(senders)[i][|"from:"|..] == senders[i];
    }
    FormatDateRoundTrip(yesterday);
    QueryTail(Join(SenderTerms(senders), " OR "), FormatDate(yesterday));
  }

  /** Where the parenthesised sender terms and the ten-character date sit. */
  lemma QueryTail(terms: string, date: string)
    requires |date| == 10
    ensures var q := "(" + terms + ") after:" + date;
      && |q| >= 19 && q[0] == '('
      && q[|q| - 18..|q| - 10] == ") after:"
      && q[|q| - 10..] == date
  {
    var q := "(" + terms + ") after:" + date;
    var tail := ") after:" + date;
    assert q == "(" + terms + tail;
    assert q[|q| - 18..] == tail;
    assert q[|q| - 18..|q| - 10] == tail[..8];
    assert q[|q| - 10..] == tail[8..];
  }

  // ---------------------------------------------------------------------
  // _analyze_email_for_switch2: matching and classification

  /** The text the keywords are looked for in. */
  function EmailContent(subject: string, body: string): string {
    Lower(subject + " " + body)
  }

  predicate Hit(content: string, kw: string) {
    Contains(content, Lower(kw))
  }

  /** The keywords that occur in the text, in their declared order. */
  function Matches(keywords: seq<string>, content: string): (r: seq<string>)
    ensures |r| <= |keywords|
  {
    if keywords == [] then []
    else
      var kw := keywords[|keywords| - 1];
      Matches(keywords[..|keywords| - 1], content) + (if Hit(content, kw) then [kw] else [])
  }

  /** A keyword is matched exactly when it is listed and occurs. */
  lemma {:induction false} MatchesSpec(keywords: seq<string>, content: string)
    ensures forall kw :: kw in Matches(keywords, content) <==> kw in keywords && Hit(content, kw)
    decreases |keywords|
  {
    if keywords != [] {
      var init := keywords[..|keywords| - 1];
      MatchesSpec(init, content);
      assert keywords == init + [keywords[|keywords| - 1]];
    }
  }

  /** Matching is per keyword and keeps order: the matches of a
      concatenation are the concatenation of the matches. */
  lemma {:induction false} MatchesAppend(xs: seq<string>, ys: seq<string>, content: string)
    ensures Matches(xs + ys, content) == Matches(xs, content) + Matches(ys, content)
    decreases |ys|
  {
    if ys == [] {
      assert xs + ys == xs;
    } else {
      var front := ys[..|ys| - 1];
      assert (xs + ys)[..|xs + ys| - 1] == xs + front;
      MatchesAppend(xs, front, content);
    }
  }

  /** Every text that matches `nintendo switch 2` also matches `switch 2`,
      so the longer keyword never appears alone among the matches. */
  lemma Switch2Subsumed(content: string)
    requires "nintendo switch 2" in Matches(Switch2Keywords, content)
    ensures "switch 2" in Matches(Switch2Keywords, content)
  {
    var long, short := "nintendo switch 2", "switch 2";
    MatchesSpec(Switch2Keywords, content);
    assert Hit(content, long);
    Switch2KeywordsLower();
    ContainsRight(content, long, 9);
    assert Hit(content, short);
    assert Switch2Keywords[0] == short;
  }

  /** Both keywords are already in lower case, and the longer one ends
      with the shorter. */
  lemma Switch2KeywordsLower()
    ensures Lower("nintendo switch 2") == "nintendo switch 2" && Lower("switch 2") == "switch 2"
    ensures "nintendo switch 2"[9..] == "switch 2"
  {
    var long, short := "nintendo switch 2", "switch 2";
    assert long[9..] == short by {
      forall i | 0 <= i < |short| ensures long[9 + i] == short[i] {
        assert i in {0, 1, 2, 3, 4, 5, 6, 7};
      }
    }
    assert IsLowerCase(long) by {
      forall i | 0 <= i < |long| ensures !('A' <= long[i] <= 'Z') {
        assert i in {0, 1, 2, 3, 4, 5, 6, 7, 8, 9, 10, 11, 12, 13, 14, 15, 16};
      }
    }
    assert IsLowerCase(short) by {
      forall i | 0 <= i < |short| ensures !('A' <= short[i] <= 'Z') {
        assert i in {0, 1, 2, 3, 4, 5, 6, 7};
      }
    }
    LowerOfLowerCase(long);
    LowerOfLowerCase(short);
  }

  /** A text that contains a string contains every suffix of it. */
  lemma ContainsRight(s: string, sub: string, k: nat)
    requires Contains(s, sub) && k <= |sub|
    ensures Contains(s, sub[k..])
  {
    ContainsIffOccurs(s, sub);
    var i :| 0 <= i <= |s| && OccursAt(s, sub, i);
    assert s[i + k..][..|sub| - k] == sub[k..];
    assert OccursAt(s, sub[k..], i + k);
    ContainsIffOccurs(s, sub[k..]);
  }

  datatype Verdict =
    | PurchaseAlert(switch2: seq<string>, purchase: seq<string>)
    | Mention(switch2: seq<string>)
    | Nothing

  /** Both kinds of keyword: a purchase alert; Switch 2 keywords alone: a
      mention; otherwise nothing. */
  function Classify(switch2: seq<string>, purchase: seq<string>): Verdict {
    if switch2 != [] && purchase != [] then PurchaseAlert(switch2, purchase)
    else if switch2 != [] then Mention(switch2)
    else Nothing
  }

  /** The verdict for an email, given the two keyword lists. */
  function EmailVerdict(switch2Keywords: seq<string>, purchaseKeywords: seq<string>, subject: string, body: string)
    : Verdict
  {
    var content := EmailContent(subject, body);
    Classify(Matches(switch2Keywords, content), Matches(purchaseKeywords, content))
  }

  /** The verdict in terms of keyword occurrences in the lower-cased text. */
  lemma VerdictSpec(switch2Keywords: seq<string>, purchaseKeywords: seq<string>, subject: string, body: string)
    ensures var content := EmailContent(subject, body);
      var s2 := exists kw :: kw in switch2Keywords && Hit(content, kw);
      var buy := exists kw :: kw in purchaseKeywords && Hit(content, kw);
      var v := EmailVerdict(switch2Keywords, purchaseKeywords, subject, body);
      && (v.PurchaseAlert? <==> s2 && buy)
      && (v.Mention? <==> s2 && !buy)
      && (v.Nothing? <==> !s2)
  {
    var content := EmailContent(subject, body);
    MatchesSpec(switch2Keywords, content);
    MatchesSpec(purchaseKeywords, content);
    var m2, mp := Matches(switch2Keywords, content), Matches(purchaseKeywords, content);
    if m2 != [] {
      assert m2[0] in m2;
    }
    if mp != [] {
      assert mp[0] in mp;
    }
  }

  // ---------------------------------------------------------------------
  // Alerts

  // The fixed text of alerts, contexts and memories, named so that proofs
  // about the records do not unfold it.
  const PurchaseHeadline: string := "\U{1F3AE} NINTENDO SWITCH 2 EMAIL DETECTED! \U{1F6A8}\n\nSubject: "
  const MentionHeadline: string := "\U{1F4E7} Nintendo Switch 2 mentioned in email\n\nSubject: "
  const ProcessedPrefix: string := "Processed Nintendo email "
  const ContextSender: string := "\n        Email from: "
  const ContextSubject: string := "\n        Subject: "
  const ContextDate: string := "\n        Date: "
  const ContextSwitch2: string := "\n        Switch 2 keywords found: "
  const ContextPurchase: string := "\n        Purchase keywords found: "
  const ContextPreview: string := "\n        Body preview: "
  const ContextEnd: string := "...\n        "
  const LearningPrefix: string := "CRITICAL: Nintendo Switch 2 purchase email detected from "
  const Switch2MatchesKey: string := "switch2_matches"
  const PurchaseMatchesKey: string := "purchase_matches"
  const Switch2KeywordsKey: string := "switch2_keywords"
  const PurchaseKeywordsKey: string := "purchase_keywords"
  const EmailIdKey: string := "email_id"
  const SubjectKey: string := "subject"
  const SenderKey: string := "sender"
  const DateKey: string := "date"
  const AnalysisKey: string := "ai_analysis"
  const UrgencyKey: string := "urgency"
  const MessageKey: string := "message"
  const FromLine: string := "\nFrom: "
  const DateLine: string := "\nDate: "
  const SubjectSep: string := ": "
  const ListSep: string := ", "

  datatype Urgency = High | Medium

  function UrgencyValue(u: Urgency): string {
    match u
    case High => "HIGH"
    case Medium => "MEDIUM"
  }

  /** The alert data handed to the sinks; a mention carries no purchase
      keywords and no analysis. */
  datatype Alert = Alert(
    emailId: string,
    subject: string,
    sender: string,
    date: Option<string>,
    switch2Keywords: seq<string>,
    purchaseKeywords: Option<seq<string>>,
    aiAnalysis: Option<string>,
    urgency: Urgency,
    message: string)

  function PurchaseAlertData(email: Gmail.MessageDetail, s2: seq<string>, p: seq<string>, analysis: string)
    : (a: Alert)
    ensures a.urgency == High && a.purchaseKeywords == Some(p) && a.aiAnalysis == Some(analysis)
  {
    Alert(email.id, email.subject, email.sender, email.date, s2, Some(p), Some(analysis), High,
          Concat([PurchaseHeadline, email.subject, FromLine, email.sender, DateLine, PyStr(email.date)]))
  }

  function MentionAlertData(email: Gmail.MessageDetail, s2: seq<string>): (a: Alert)
    ensures a.urgency == Medium && a.purchaseKeywords == None && a.aiAnalysis == None
  {
    Alert(email.id, email.subject, email.sender, email.date, s2, None, None, Medium,
          Concat([MentionHeadline, email.subject, FromLine, email.sender]))
  }

  /** Who gets an alert: every enabled channel for a purchase alert, only the
      enabled console and file channels for a mention. */
  predicate Receives(c: AlertConfig, u: Urgency) {
    c.enabled && (u == High || c.alertMethod == "console" || c.alertMethod == "file")
  }

  /** The configurations an alert goes to, in the order they were added. */
  function Recipients(cs: seq<AlertConfig>, u: Urgency): (r: seq<AlertConfig>)
    ensures |r| <= |cs|
  {
    if cs == [] then []
    else
      var c := cs[|cs| - 1];
      Recipients(cs[..|cs| - 1], u) + (if Receives(c, u) then [c] else [])
  }

  /** A configuration receives an alert exactly when it is listed and
      qualifies, so a mention reaches no channel a purchase alert misses. */
  lemma {:induction false} RecipientsSpec(cs: seq<AlertConfig>, u: Urgency)
    ensures forall c :: c in Recipients(cs, u) <==> c in cs && Receives(c, u)
    ensures forall c :: c in Recipients(cs, Medium) ==> c in Recipients(cs, High)
    decreases |cs|
  {
    if cs != [] {
      var init := cs[..|cs| - 1];
      RecipientsSpec(init, u);
      RecipientsSpec(init, Medium);
      RecipientsSpec(init, High);
      assert cs == init + [cs[|cs| - 1]];
    }
  }

  /** Recipients keep the configuration order: adding a configuration adds
      at most that one recipient, at the end. */
  lemma RecipientsSnoc(cs: seq<AlertConfig>, c: AlertConfig, u: Urgency)
    ensures Recipients(cs + [c], u) == Recipients(cs, u) + (if Receives(c, u) then [c] else [])
  {
    assert (cs + [c])[..|cs|] == cs;
  }

  /** Where file and webhook alerts go. */
  datatype Sink = FileSink(path: string) | WebhookSink(url: string)

  /** Whether writing the alert to the file, or posting it to the webhook,
      went through (a failure is an exception the sender catches). */
  type Delivery = (Sink, Alert) -> bool

  datatype AlertOutcome = Shown | Logged | Delivered | DeliveryFailed | UnknownMethod

  /** _send_alert: dispatch on the method; an unknown method is only logged
      and a failing sink is caught, so sending an alert never raises. */
  function SendAlert(c: AlertConfig, alert: Alert, deliver: Delivery): (r: AlertOutcome)
    ensures r == UnknownMethod <==> c.alertMethod !in {"console", "file", "webhook", "email"}
    ensures r == Shown <==> c.alertMethod == "console"
    ensures r in {Delivered, DeliveryFailed} <==> c.alertMethod in {"file", "webhook"}
  {
    if c.alertMethod == "console" then Shown
    else if c.alertMethod == "file" then
      if deliver(FileSink(c.target), alert) then Delivered else DeliveryFailed
    else if c.alertMethod == "webhook" then
      if deliver(WebhookSink(c.target), alert) then Delivered else DeliveryFailed
    else if c.alertMethod == "email" then Logged
    else UnknownMethod
  }

  /** One alert sent to one channel, with its outcome. */
  datatype Dispatch = Dispatch(config: AlertConfig, alert: Alert, outcome: AlertOutcome)

  function Dispatches(cs: seq<AlertConfig>, alert: Alert, deliver: Delivery): (r: seq<Dispatch>)
    ensures |r| == |cs|
  {
    if cs == [] then []
    else
      var c := cs[|cs| - 1];
      Dispatches(cs[..|cs| - 1], alert, deliver) + [Dispatch(c, alert, SendAlert(c, alert, deliver))]
  }

  /** One dispatch per configuration, in their order, each of the same
      alert and with that channel's outcome. */
  lemma {:induction false} DispatchesSpec(cs: seq<AlertConfig>, alert: Alert, deliver: Delivery)
    ensures var r := Dispatches(cs, alert, deliver);
      forall i :: 0 <= i < |cs| ==> r[i] == Dispatch(cs[i], alert, SendAlert(cs[i], alert, deliver))
  {
    if cs != [] {
      DispatchesSpec(cs[..|cs| - 1], alert, deliver);
    }
  }

  /** Sending to one more channel adds its dispatch at the end. */
  lemma DispatchesSnoc(cs: seq<AlertConfig>, c: AlertConfig, alert: Alert, deliver: Delivery)
    ensures Dispatches(cs + [c], alert, deliver)
         == Dispatches(cs, alert, deliver) + [Dispatch(c, alert, SendAlert(c, alert, deliver))]
  {
    assert (cs + [c])[..|cs|] == cs;
  }

  /** One step of the loop over the configurations: the next one adds its
      dispatch exactly when it receives alerts of this urgency. */
  lemma BroadcastStep(log: seq<Dispatch>, cs: seq<AlertConfig>, i: nat, alert: Alert, deliver: Delivery)
    requires i < |cs|
    ensures var sent := log + Dispatches(Recipients(cs[..i], alert.urgency), alert, deliver);
            var next := log + Dispatches(Recipients(cs[..i + 1], alert.urgency), alert, deliver);
      && (Receives(cs[i], alert.urgency) ==> next == sent + [Dispatch(cs[i], alert, SendAlert(cs[i], alert, deliver))])
      && (!Receives(cs[i], alert.urgency) ==> next == sent)
  {
    var before := Recipients(cs[..i], alert.urgency);
    assert cs[..i + 1] == cs[..i] + [cs[i]];
    RecipientsSnoc(cs[..i], cs[i], alert.urgency);
    if Receives(cs[i], alert.urgency) {
      var d := Dispatch(cs[i], alert, SendAlert(cs[i], alert, deliver));
      DispatchesSnoc(before, cs[i], alert, deliver);
      assert log + (Dispatches(before, alert, deliver) + [d]) == (log + Dispatches(before, alert, deliver)) + [d];
    } else {
      assert before + [] == before;
    }
  }

  // ---------------------------------------------------------------------
  // What an analysis writes to memory

  function DedupQuery(emailId: string): string {
    ProcessedPrefix + emailId
  }

  const AnalysisGoal: string := "Analyze this Nintendo email to determine if it's about Switch 2 availability"

  const ObservationScore: real := 0.3
  const AlertScore: real := 1.0

  /** The first 500 characters of the body. */
  function Preview(body: string): (r: string)
    ensures r <= body && |r| == if |body| <= 500 then |body| else 500
  {
    if |body| <= 500 then body else body[..500]
  }

  /** The context handed to the agent for a purchase alert. */
  function EmailContext(email: Gmail.MessageDetail, s2: seq<string>, p: seq<string>): string {
    Concat([ContextSender, email.sender, ContextSubject, email.subject, ContextDate, PyStr(email.date),
            ContextSwitch2, Join(s2, ListSep), ContextPurchase, Join(p, ListSep),
            ContextPreview, Preview(email.bodyClean), ContextEnd])
  }

  function LearningText(email: Gmail.MessageDetail): string {
    Concat([LearningPrefix, email.sender, SubjectSep, email.subject])
  }

  function ObservationText(email: Gmail.MessageDetail): string {
    DedupQuery(email.id) + Concat([SubjectSep, email.subject])
  }

  /** The observation's metadata: both match lists joined into strings. */
  function ObservationMetadata(email: Gmail.MessageDetail, s2: seq<string>, p: seq<string>): Metadata {
    map[EmailIdKey := Str(email.id), SenderKey := Str(email.sender),
        Switch2MatchesKey := Str(Join(s2, ListSep)), PurchaseMatchesKey := Str(Join(p, ListSep))]
  }

  /** The observation an analysis records. */
  function ObservationRecord(id: string, email: Gmail.MessageDetail, s2: seq<string>, p: seq<string>, now: string)
    : (r: Record)
    ensures r.id == id && r.document == ObservationText(email)
  {
    NewRecord(id, ObservationText(email), Observation, now, Some(ObservationScore), ObservationMetadata(email, s2, p))
  }

  /** The learning a purchase alert records. */
  function LearningRecord(id: string, email: Gmail.MessageDetail, a: Alert, now: string): Record
    requires a.purchaseKeywords.Some? && a.aiAnalysis.Some?
  {
    NewRecord(id, LearningText(email), Learning, now, Some(AlertScore), AlertMetadata(a))
  }

  /** The alert data stored with the learning, as the handler writes it: the
      keyword lists stay lists and a missing date stays None. */
  function AlertMetadataAsWritten(a: Alert): Metadata
    requires a.purchaseKeywords.Some? && a.aiAnalysis.Some?
  {
    map[EmailIdKey := Str(a.emailId), SubjectKey := Str(a.subject), SenderKey := Str(a.sender),
        DateKey := (if a.date.Some? then Str(a.date.value) else Null),
        Switch2KeywordsKey := StrList(a.switch2Keywords),
        PurchaseKeywordsKey := StrList(a.purchaseKeywords.value),
        AnalysisKey := Str(a.aiAnalysis.value), UrgencyKey := Str(UrgencyValue(a.urgency)),
        MessageKey := Str(a.message)]
  }

  /** The same data with the lists joined as the observation joins them and
      a missing date written as "", which the store accepts. */
  function AlertMetadata(a: Alert): Metadata
    requires a.purchaseKeywords.Some? && a.aiAnalysis.Some?
  {
    map[EmailIdKey := Str(a.emailId), SubjectKey := Str(a.subject), SenderKey := Str(a.sender),
        DateKey := Str(a.date.GetOr("")),
        Switch2KeywordsKey := Str(Join(a.switch2Keywords, ListSep)),
        PurchaseKeywordsKey := Str(Join(a.purchaseKeywords.value, ListSep)),
        AnalysisKey := Str(a.aiAnalysis.value), UrgencyKey := Str(UrgencyValue(a.urgency)),
        MessageKey := Str(a.message)]
  }

  /** The store refuses the learning as the handler writes it, whatever the
      email: the keyword lists are list values. */
  lemma AlertLearningRejected(a: Alert, now: string)
    requires a.purchaseKeywords.Some? && a.aiAnalysis.Some?
    ensures !Storable(AssembleMetadata(Learning, now, Some(AlertScore), AlertMetadataAsWritten(a)))
  {
    var m := AssembleMetadata(Learning, now, Some(AlertScore), AlertMetadataAsWritten(a));
    assert m[Switch2KeywordsKey].StrList?;
  }

  /** The corrected learning is stored and reads back as a learning of
      importance 1.0 carrying the alert data. */
  lemma AlertLearningStored(id: string, email: Gmail.MessageDetail, a: Alert, now: string)
    requires a.purchaseKeywords.Some? && a.aiAnalysis.Some?
    ensures Storable(AssembleMetadata(Learning, now, Some(AlertScore), AlertMetadata(a)))
    ensures ToEntry(NewRecord(id, LearningText(email), Learning, now, Some(AlertScore), AlertMetadata(a)))
         == Ok(MemoryEntry(id, LearningText(email), Learning, now, Some(AlertMetadata(a)), None, Some(AlertScore)))
  {
    AlertMetadataKeys(a);
    StringMetadataStorable(Learning, now, Some(AlertScore), AlertMetadata(a));
    StoredRecordReadsBack(id, LearningText(email), Learning, now, Some(AlertScore), AlertMetadata(a));
  }

  /** The keys of the stored alert data, none of them reserved, and every
      value a string. */
  lemma AlertMetadataKeys(a: Alert)
    requires a.purchaseKeywords.Some? && a.aiAnalysis.Some?
    ensures ReservedKeys !! AlertMetadata(a).Keys
    ensures forall k :: k in AlertMetadata(a) ==> AlertMetadata(a)[k].Str?
  {
    var keys := {"email_id", "subject", "sender", "date", Switch2KeywordsKey, PurchaseKeywordsKey, "ai_analysis",
                 "urgency", "message"};
    assert AlertMetadata(a).Keys == keys;
    assert ReservedKeys !! keys;
  }

  /** The observation is stored and reads back as an observation of
      importance 0.3. */
  lemma ObservationStored(id: string, email: Gmail.MessageDetail, s2: seq<string>, p: seq<string>, now: string)
    ensures Storable(AssembleMetadata(Observation, now, Some(ObservationScore), ObservationMetadata(email, s2, p)))
    ensures ToEntry(NewRecord(id, ObservationText(email), Observation, now, Some(ObservationScore),
                              ObservationMetadata(email, s2, p)))
         == Ok(MemoryEntry(id, ObservationText(email), Observation, now,
                           Some(ObservationMetadata(email, s2, p)), None, Some(ObservationScore)))
  {
    StringMetadataStorable(Observation, now, Some(ObservationScore), ObservationMetadata(email, s2, p));
    StoredRecordReadsBack(id, ObservationText(email), Observation, now, Some(ObservationScore),
                          ObservationMetadata(email, s2, p));
  }

  /** What analysing one email came to. */
  datatype Analysis = Skipped | Analyzed(verdict: Verdict)

  /** What analysing an email can report: it was skipped as a duplicate, or
      it was analysed and got its verdict. */
  predicate Reports(a: Analysis, switch2Keywords: seq<string>, purchaseKeywords: seq<string>, email: Gmail.MessageDetail) {
    a == Skipped || a == Analyzed(EmailVerdict(switch2Keywords, purchaseKeywords, email.subject, email.bodyClean))
  }

  /** Why a check ended early: the listing raised, or an analysis did. The
      check catches and logs either. */
  datatype CheckFailure = ListingRaised(listing: Gmail.ListingError) | AnalysisRaised(failure: Failure)

  /** What the monitor changes: the store's records, its id draws and
      request count, and the log of dispatched alerts. */
  datatype World = World(records: seq<Record>, draws: nat, calls: nat, sent: seq<Dispatch>)

  /** What an analysis depends on and cannot see: which store requests are
      answered, the id source, the nearest-neighbour ranking, the completion,
      the importance rendering, the alert sinks and the clock. */
  datatype Oracles = Oracles(reachable: nat -> bool, uuid4: nat -> string, nearest: Ranker, complete: Completion,
                             scoreText: real -> string, deliver: Delivery, now: string)

  /** The monitor's keyword lists and alert configurations. */
  datatype Settings = Settings(switch2Keywords: seq<string>, purchaseKeywords: seq<string>, configs: seq<AlertConfig>)

  /** What one step of an analysis returns, and the world after it. */
  datatype Run<T> = Run(value: T, world: World)

  /** One analysis step: its result and the world after it. */
  type Step = Run<Result<Analysis, Failure>>

  /** An adder of the agent as the monitor sees it. */
  function NoteStep(reachable: nat -> bool, uuid4: nat -> string, text: string, t: MemoryType, score: real,
                    extra: Metadata, now: string, w: World): Run<Outcome<Failure>>
  {
    var n := Note(reachable, uuid4, text, t, score, extra, now, Memory(w.records, w.draws, w.calls));
    Run(n.value, World(n.memory.records, n.memory.draws, n.memory.calls, w.sent))
  }

  /** The agent's answer to the purchase alert once the store answers the
      recall: the recall's error, a failed completion, or the analysis. */
  function PurchaseAnswer(o: Oracles, email: Gmail.MessageDetail, s2: seq<string>, p: seq<string>,
                          records: seq<Record>): Result<string, Failure>
  {
    Answer(AnalysisGoal, EmailContext(email, s2, p), DefaultRecallLimit, o.nearest, o.complete, o.scoreText, records)
  }

  /** run_agent as the monitor sees it. */
  function AgentStep(reachable: nat -> bool, uuid4: nat -> string, goal: string, context: string, limit: nat,
                     nearest: Ranker, complete: Completion, scoreText: real -> string, now: string, w: World)
    : Run<Result<string, Failure>>
  {
    var e := Exchange(reachable, uuid4, goal, context, limit, nearest, complete, scoreText, now,
                      Memory(w.records, w.draws, w.calls));
    Run(e.value, World(e.memory.records, e.memory.draws, e.memory.calls, w.sent))
  }

  /** The purchase handler: the agent first; once it has answered, the alert
      to every enabled channel and then the learning. */
  function HandleStep(o: Oracles, configs: seq<AlertConfig>, email: Gmail.MessageDetail, s2: seq<string>,
                      p: seq<string>, w: World): Run<Outcome<Failure>>
  {
    var a := AgentStep(o.reachable, o.uuid4, AnalysisGoal, EmailContext(email, s2, p), DefaultRecallLimit,
                       o.nearest, o.complete, o.scoreText, o.now, w);
    match a.value
    case Err(e) => Run(Fail(e), a.world)
    case Ok(analysis) =>
      var alert := PurchaseAlertData(email, s2, p, analysis);
      var alerted := a.world.(sent := a.world.sent + Dispatches(Recipients(configs, High), alert, o.deliver));
      NoteStep(o.reachable, o.uuid4, LearningText(email), Learning, AlertScore, AlertMetadata(alert), o.now, alerted)
  }

  /** The observation every handled email ends with, and the verdict
      reported once it is stored. */
  function Conclude(o: Oracles, email: Gmail.MessageDetail, s2: seq<string>, p: seq<string>, w: World): Step {
    var ob := NoteStep(o.reachable, o.uuid4, ObservationText(email), Observation, ObservationScore,
                       ObservationMetadata(email, s2, p), o.now, w);
    Run(if ob.value.Pass? then Ok(Analyzed(Classify(s2, p))) else Err(ob.value.error), ob.world)
  }

  /** A purchase alert: the handler, then the observation unless the handler raised. */
  function PurchaseStep(o: Oracles, configs: seq<AlertConfig>, email: Gmail.MessageDetail, s2: seq<string>,
                        p: seq<string>, w: World): Step
  {
    var h := HandleStep(o, configs, email, s2, p, w);
    if h.value.Fail? then Run(Err(h.value.error), h.world) else Conclude(o, email, s2, p, h.world)
  }

  /** A mention alerts the console and file channels, an email with no
      Switch 2 keyword alerts nobody; either way the observation follows. */
  function NoticeStep(o: Oracles, configs: seq<AlertConfig>, email: Gmail.MessageDetail, s2: seq<string>,
                      p: seq<string>, w: World): Step
  {
    var alerted := if Classify(s2, p).Mention? then
                     w.(sent := w.sent + Dispatches(Recipients(configs, Medium), MentionAlertData(email, s2), o.deliver))
                   else w;
    Conclude(o, email, s2, p, alerted)
  }

  /** The handler the verdict calls for. */
  function ResponseStep(o: Oracles, configs: seq<AlertConfig>, email: Gmail.MessageDetail, s2: seq<string>,
                        p: seq<string>, w: World): Step
  {
    if Classify(s2, p).PurchaseAlert? then PurchaseStep(o, configs, email, s2, p, w)
    else NoticeStep(o, configs, email, s2, p, w)
  }

  /** The dedup recall: whether the store holds a close enough record for
      the email's dedup query, or the store's error. */
  function DedupStep(reachable: nat -> bool, nearest: Ranker, email: Gmail.MessageDetail, w: World)
    : Run<Result<bool, Failure>>
  {
    var after := w.(calls := w.calls + 2);
    if !Answered(reachable, w.calls) then Run(Err(BackendUnavailable), after)
    else
      var seen := SearchResult(nearest(DedupQuery(email.id), None, 1, w.records), DefaultSimilarityThreshold);
      Run(if seen.Err? then Err(seen.error) else Ok(seen.value != []), after)
  }

  /** _analyze_email_for_switch2: an email the store already remembers
      processing (a hit for its dedup query) is skipped, a store error
      raises, and otherwise the email's keyword matches are handled. */
  function AnalysisStep(o: Oracles, s: Settings, email: Gmail.MessageDetail, w: World): Step {
    var d := DedupStep(o.reachable, o.nearest, email, w);
    match d.value
    case Err(e) => Run(Err(e), d.world)
    case Ok(seen) =>
      if seen then Run(Ok(Skipped), d.world)
      else
        var content := EmailContent(email.subject, email.bodyClean);
        ResponseStep(o, s.configs, email, Matches(s.switch2Keywords, content), Matches(s.purchaseKeywords, content),
                     d.world)
  }

  /** The writes of the purchase handler in one piece: of the goal, the
      answer and the learning, those before the first unanswered write are
      stored, and the alert goes out once the agent's two writes are
      through. */
  lemma HandleStepLanded(o: Oracles, configs: seq<AlertConfig>, email: Gmail.MessageDetail, s2: seq<string>,
                         p: seq<string>, w: World)
    requires Answered(o.reachable, w.calls) && PurchaseAnswer(o, email, s2, p, w.records).Ok?
    ensures var h := HandleStep(o, configs, email, s2, p, w);
            var analysis := PurchaseAnswer(o, email, s2, p, w.records).value;
            var alert := PurchaseAlertData(email, s2, p, analysis);
            var recs := InteractionRecords(o.uuid4(w.draws), o.uuid4(w.draws + 1), AnalysisGoal, analysis,
                                           EmailContext(email, s2, p), o.now)
                        + [LearningRecord(o.uuid4(w.draws + 2), email, alert, o.now)];
            var k := Landed(o.reachable, w.calls + 2, 3);
      && h.value == (if k == 3 then Pass else Fail(BackendUnavailable))
      && h.world.records == w.records + recs[..k]
      && h.world.draws == w.draws + Min(k + 1, 3) && h.world.calls == w.calls + 2 + 2 * Min(k + 1, 3)
      && h.world.sent == w.sent + if k >= 2 then Dispatches(Recipients(configs, High), alert, o.deliver) else []
  {
    var analysis := PurchaseAnswer(o, email, s2, p, w.records).value;
    var alert := PurchaseAlertData(email, s2, p, analysis);
    var chat := InteractionRecords(o.uuid4(w.draws), o.uuid4(w.draws + 1), AnalysisGoal, analysis,
                                   EmailContext(email, s2, p), o.now);
    var learned := LearningRecord(o.uuid4(w.draws + 2), email, alert, o.now);
    AskThenLearn(o.reachable, w.calls + 2, chat, learned);
    if Landed(o.reachable, w.calls + 2, 2) == 2 {
      HandleStepLearned(o, configs, email, s2, p, w);
    } else {
      HandleStepCut(o, configs, email, s2, p, w);
    }
  }

  /** A write of storable metadata: it lands exactly when both of its
      requests are answered, and raises an unreachable store otherwise. */
  lemma NoteStepStored(reachable: nat -> bool, uuid4: nat -> string, text: string, t: MemoryType, score: real,
                       extra: Metadata, now: string, w: World)
    requires Storable(NewRecord(uuid4(w.draws), text, t, now, Some(score), extra).metadata)
    ensures var rec := NewRecord(uuid4(w.draws), text, t, now, Some(score), extra);
            var landed := Answered(reachable, w.calls);
      NoteStep(reachable, uuid4, text, t, score, extra, now, w)
        == Run(if landed then Pass else Fail(BackendUnavailable),
               World(w.records + (if landed then [rec] else []), w.draws + 1, w.calls + 2, w.sent))
  {
    NoteSpec(reachable, uuid4, text, t, score, extra, now, Memory(w.records, w.draws, w.calls));
  }

  /** Both of the agent's writes got through: the alert goes out and the
      learning is attempted. */
  lemma HandleStepAnswered(o: Oracles, configs: seq<AlertConfig>, email: Gmail.MessageDetail, s2: seq<string>,
                           p: seq<string>, w: World)
    requires Answered(o.reachable, w.calls) && PurchaseAnswer(o, email, s2, p, w.records).Ok?
    requires Landed(o.reachable, w.calls + 2, 2) == 2
    ensures var analysis := PurchaseAnswer(o, email, s2, p, w.records).value;
            var alert := PurchaseAlertData(email, s2, p, analysis);
            var chat := InteractionRecords(o.uuid4(w.draws), o.uuid4(w.draws + 1), AnalysisGoal, analysis,
                                           EmailContext(email, s2, p), o.now);
            var alerted := World(w.records + chat, w.draws + 2, w.calls + 6,
                                 w.sent + Dispatches(Recipients(configs, High), alert, o.deliver));
      HandleStep(o, configs, email, s2, p, w)
        == NoteStep(o.reachable, o.uuid4, LearningText(email), Learning, AlertScore, AlertMetadata(alert), o.now, alerted)
  {
    AgentStepAnswered(o, email, s2, p, w);
  }

  /** The agent's run when the recall and both writes are answered: the
      analysis, with the goal and the answer stored. */
  lemma AgentStepAnswered(o: Oracles, email: Gmail.MessageDetail, s2: seq<string>, p: seq<string>, w: World)
    requires Answered(o.reachable, w.calls) && PurchaseAnswer(o, email, s2, p, w.records).Ok?
    requires Landed(o.reachable, w.calls + 2, 2) == 2
    ensures var analysis := PurchaseAnswer(o, email, s2, p, w.records).value;
            var chat := InteractionRecords(o.uuid4(w.draws), o.uuid4(w.draws + 1), AnalysisGoal, analysis,
                                           EmailContext(email, s2, p), o.now);
      AgentStep(o.reachable, o.uuid4, AnalysisGoal, EmailContext(email, s2, p), DefaultRecallLimit, o.nearest,
                o.complete, o.scoreText, o.now, w)
        == Run(Ok(analysis), World(w.records + chat, w.draws + 2, w.calls + 6, w.sent))
  {
    ExchangeAnswered(o.reachable, o.uuid4, AnalysisGoal, EmailContext(email, s2, p), DefaultRecallLimit, o.nearest,
                     o.complete, o.scoreText, o.now, Memory(w.records, w.draws, w.calls));
  }

  /** Both of the agent's writes landed: every recipient has the alert, and
      the learning lands exactly when its own requests are answered. */
  lemma HandleStepLearned(o: Oracles, configs: seq<AlertConfig>, email: Gmail.MessageDetail, s2: seq<string>,
                          p: seq<string>, w: World)
    requires Answered(o.reachable, w.calls) && PurchaseAnswer(o, email, s2, p, w.records).Ok?
    requires Landed(o.reachable, w.calls + 2, 2) == 2
    ensures var analysis := PurchaseAnswer(o, email, s2, p, w.records).value;
            var alert := PurchaseAlertData(email, s2, p, analysis);
            var chat := InteractionRecords(o.uuid4(w.draws), o.uuid4(w.draws + 1), AnalysisGoal, analysis,
                                           EmailContext(email, s2, p), o.now);
            var learned := LearningRecord(o.uuid4(w.draws + 2), email, alert, o.now);
            var landed := Answered(o.reachable, w.calls + 6);
      HandleStep(o, configs, email, s2, p, w)
        == Run(if landed then Pass else Fail(BackendUnavailable),
               World(w.records + chat + (if landed then [learned] else []), w.draws + 3, w.calls + 8,
                     w.sent + Dispatches(Recipients(configs, High), alert, o.deliver)))
  {
    var analysis := PurchaseAnswer(o, email, s2, p, w.records).value;
    var alert := PurchaseAlertData(email, s2, p, analysis);
    var chat := InteractionRecords(o.uuid4(w.draws), o.uuid4(w.draws + 1), AnalysisGoal, analysis,
                                   EmailContext(email, s2, p), o.now);
    var alerted := World(w.records + chat, w.draws + 2, w.calls + 6,
                         w.sent + Dispatches(Recipients(configs, High), alert, o.deliver));
    LearningStorable(o.uuid4(w.draws + 2), email, alert, o.now);
    HandleStepAnswered(o, configs, email, s2, p, w);
    NoteStepStored(o.reachable, o.uuid4, LearningText(email), Learning, AlertScore, AlertMetadata(alert), o.now,
                   alerted);
  }

  /** One of the agent's writes failed: the handler raises with the writes
      before it, and nothing is sent. */
  lemma HandleStepCut(o: Oracles, configs: seq<AlertConfig>, email: Gmail.MessageDetail, s2: seq<string>,
                      p: seq<string>, w: World)
    requires Answered(o.reachable, w.calls) && PurchaseAnswer(o, email, s2, p, w.records).Ok?
    requires Landed(o.reachable, w.calls + 2, 2) < 2
    ensures var analysis := PurchaseAnswer(o, email, s2, p, w.records).value;
            var chat := InteractionRecords(o.uuid4(w.draws), o.uuid4(w.draws + 1), AnalysisGoal, analysis,
                                           EmailContext(email, s2, p), o.now);
            var k := Landed(o.reachable, w.calls + 2, 2);
      HandleStep(o, configs, email, s2, p, w)
        == Run(Fail(BackendUnavailable), World(w.records + chat[..k], w.draws + k + 1, w.calls + 4 + 2 * k, w.sent))
  {
    ExchangeLanded(o.reachable, o.uuid4, AnalysisGoal, EmailContext(email, s2, p), DefaultRecallLimit, o.nearest,
                   o.complete, o.scoreText, o.now, Memory(w.records, w.draws, w.calls));
  }

  /** The recall went unanswered, or the recall or the completion failed:
      the handler raises before anything is written or sent. */
  lemma HandleStepRefused(o: Oracles, configs: seq<AlertConfig>, email: Gmail.MessageDetail, s2: seq<string>,
                          p: seq<string>, w: World)
    requires !Answered(o.reachable, w.calls) || PurchaseAnswer(o, email, s2, p, w.records).Err?
    ensures var answer := PurchaseAnswer(o, email, s2, p, w.records);
      HandleStep(o, configs, email, s2, p, w)
        == Run(Fail(if Answered(o.reachable, w.calls) then answer.error else BackendUnavailable),
               w.(calls := w.calls + 2))
  {
    ExchangeLanded(o.reachable, o.uuid4, AnalysisGoal, EmailContext(email, s2, p), DefaultRecallLimit, o.nearest,
                   o.complete, o.scoreText, o.now, Memory(w.records, w.draws, w.calls));
  }

  /** The corrected learning passes the store's metadata check. */
  lemma LearningStorable(id: string, email: Gmail.MessageDetail, a: Alert, now: string)
    requires a.purchaseKeywords.Some? && a.aiAnalysis.Some?
    ensures Storable(LearningRecord(id, email, a, now).metadata)
  {
    AlertLearningStored(id, email, a, now);
  }

  /** What a handler leaves behind: it only appends, to the store's
      records and to the alert log, and one that completes reports the
      verdict and has just stored the email's observation. */
  ghost predicate Handled(email: Gmail.MessageDetail, s2: seq<string>, p: seq<string>, w: World, st: Step) {
    && w.records <= st.world.records && w.sent <= st.world.sent
    && (st.value.Ok? ==>
          && st.value.value == Analyzed(Classify(s2, p))
          && |st.world.records| > |w.records|
          && st.world.records[|st.world.records| - 1].document == ObservationText(email))
  }

  /** The observation is the last write, and a handler that writes nothing
      else has only appended. */
  lemma ConcludeHandled(o: Oracles, email: Gmail.MessageDetail, s2: seq<string>, p: seq<string>, w0: World, w: World)
    requires w0.records <= w.records && w0.sent <= w.sent
    ensures Handled(email, s2, p, w0, Conclude(o, email, s2, p, w))
  {
    var rec := ObservationRecord(o.uuid4(w.draws), email, s2, p, o.now);
    var st := Conclude(o, email, s2, p, w);
    if st.value.Ok? {
      assert st.world.records == w.records + [rec];
      PrefixChain(w0.records, w.records, st.world.records);
    }
  }

  lemma PurchaseStepHandled(o: Oracles, configs: seq<AlertConfig>, email: Gmail.MessageDetail, s2: seq<string>,
                            p: seq<string>, w: World)
    requires Classify(s2, p).PurchaseAlert?
    ensures Handled(email, s2, p, w, PurchaseStep(o, configs, email, s2, p, w))
  {
    var a := AgentStep(o.reachable, o.uuid4, AnalysisGoal, EmailContext(email, s2, p), DefaultRecallLimit,
                       o.nearest, o.complete, o.scoreText, o.now, w);
    var h := HandleStep(o, configs, email, s2, p, w);
    ExchangeAppends(o.reachable, o.uuid4, AnalysisGoal, EmailContext(email, s2, p), DefaultRecallLimit, o.nearest,
                    o.complete, o.scoreText, o.now, Memory(w.records, w.draws, w.calls));
    PrefixChain(w.records, a.world.records, h.world.records);
    if h.value.Pass? {
      ConcludeHandled(o, email, s2, p, w, h.world);
    }
  }

  lemma NoticeStepHandled(o: Oracles, configs: seq<AlertConfig>, email: Gmail.MessageDetail, s2: seq<string>,
                          p: seq<string>, w: World)
    ensures Handled(email, s2, p, w, NoticeStep(o, configs, email, s2, p, w))
  {
    var alerted := if Classify(s2, p).Mention? then
                     w.(sent := w.sent + Dispatches(Recipients(configs, Medium), MentionAlertData(email, s2), o.deliver))
                   else w;
    ConcludeHandled(o, email, s2, p, w, alerted);
  }

  lemma ResponseStepHandled(o: Oracles, configs: seq<AlertConfig>, email: Gmail.MessageDetail, s2: seq<string>,
                            p: seq<string>, w: World)
    ensures Handled(email, s2, p, w, ResponseStep(o, configs, email, s2, p, w))
  {
    if Classify(s2, p).PurchaseAlert? {
      PurchaseStepHandled(o, configs, email, s2, p, w);
    } else {
      NoticeStepHandled(o, configs, email, s2, p, w);
    }
  }

  /** An analysis only appends, to the store's records and to the alert
      log. The email is skipped exactly when the dedup recall finds a
      record, and a failed recall raises before anything else happens. A
      completed analysis reports the email's verdict; a skip changes
      nothing but the request count; and an analysed email ends with the
      observation whose text the dedup query looks for next time. */
  lemma AnalysisStepSpec(o: Oracles, s: Settings, email: Gmail.MessageDetail, w: World)
    ensures var st := AnalysisStep(o, s, email, w);
            var d := DedupStep(o.reachable, o.nearest, email, w);
      && (st.value == Ok(Skipped) <==> d.value == Ok(true))
      && (d.value.Err? ==> st == Run(Err(d.value.error), w.(calls := w.calls + 2)))
      && w.records <= st.world.records && w.sent <= st.world.sent
      && (st.value.Ok? ==> Reports(st.value.value, s.switch2Keywords, s.purchaseKeywords, email))
      && (st.value == Ok(Skipped) ==> st.world == w.(calls := w.calls + 2))
      && (st.value.Ok? && st.value.value.Analyzed? ==>
            && |st.world.records| > |w.records|
            && var last := st.world.records[|st.world.records| - 1];
               last.document == ObservationText(email) && DedupQuery(email.id) <= last.document)
  {
    var d := DedupStep(o.reachable, o.nearest, email, w);
    if d.value == Ok(false) {
      var content := EmailContent(email.subject, email.bodyClean);
      ResponseStepHandled(o, s.configs, email, Matches(s.switch2Keywords, content), Matches(s.purchaseKeywords, content),
                          d.world);
    }
  }

  /** The analyses of a check so far, the failure that ended it if any, and
      the world after them. */
  datatype Checked = Checked(analyses: seq<Analysis>, failure: Option<Failure>, world: World)

  /** What analysing one email does to a world, as a value. */
  type Analyzer = (Gmail.MessageDetail, World) -> Step

  /** The monitor's analysis under the given oracles and settings. */
  function Analyzing(o: Oracles, s: Settings): Analyzer {
    (email, w) => AnalysisStep(o, s, email, w)
  }

  /** What every analysis keeps: it only appends, and a completed one
      reports the email's verdict or its skip. */
  ghost predicate Kept(s: Settings, email: Gmail.MessageDetail, w: World, st: Step) {
    && w.records <= st.world.records && w.sent <= st.world.sent
    && (st.value.Ok? ==> Reports(st.value.value, s.switch2Keywords, s.purchaseKeywords, email))
  }

  /** The monitor's analysis keeps that on every email and every world. */
  lemma AnalyzingKept(o: Oracles, s: Settings)
    ensures forall email, w :: Kept(s, email, w, Analyzing(o, s)(email, w))
  {
    forall email, w ensures Kept(s, email, w, Analyzing(o, s)(email, w)) {
      AnalysisStepSpec(o, s, email, w);
    }
  }

  /** The loop of _check_for_switch2_emails over the listed emails: each is
      analysed in turn, and the first failure ends the loop. */
  function Batch(step: Analyzer, emails: seq<Gmail.MessageDetail>, w: World): Checked
    decreases |emails|
  {
    if emails == [] then Checked([], None, w)
    else
      var b := Batch(step, emails[..|emails| - 1], w);
      if b.failure.Some? then b
      else
        var st := step(emails[|emails| - 1], b.world);
        match st.value
        case Err(e) => Checked(b.analyses, Some(e), st.world)
        case Ok(a) => Checked(b.analyses + [a], None, st.world)
  }

  /** The batch one email further on: that email's analysis, on the world
      the emails before it left. */
  lemma BatchNext(step: Analyzer, emails: seq<Gmail.MessageDetail>, i: nat, w: World)
    requires i < |emails| && Batch(step, emails[..i], w).failure.None?
    ensures var b := Batch(step, emails[..i], w);
            var st := step(emails[i], b.world);
      Batch(step, emails[..i + 1], w)
        == if st.value.Err? then Checked(b.analyses, Some(st.value.error), st.world)
           else Checked(b.analyses + [st.value.value], None, st.world)
  {
    assert emails[..i + 1][..i] == emails[..i];
  }

  /** Once an analysis has failed, the emails after it change nothing. */
  lemma {:induction false} BatchStops(step: Analyzer, emails: seq<Gmail.MessageDetail>,
                                      rest: seq<Gmail.MessageDetail>, w: World)
    requires Batch(step, emails, w).failure.Some?
    ensures Batch(step, emails + rest, w) == Batch(step, emails, w)
    decreases |rest|
  {
    if rest == [] {
      assert emails + rest == emails;
    } else {
      var front := rest[..|rest| - 1];
      assert (emails + rest)[..|emails + rest| - 1] == emails + front;
      BatchStops(step, emails, front, w);
    }
  }

  /** A check analyses a prefix of the listed emails, all of them unless an
      analysis failed, reports each one's verdict or skip, and only appends
      to the records and the alert log, for any analysis that keeps what
      the monitor's keeps (AnalyzingKept). */
  lemma {:induction false} BatchSpec(step: Analyzer, s: Settings, emails: seq<Gmail.MessageDetail>, w: World)
    requires forall email, v :: Kept(s, email, v, step(email, v))
    ensures var b := Batch(step, emails, w);
      && |b.analyses| <= |emails|
      && (b.failure.None? <==> |b.analyses| == |emails|)
      && (forall i :: 0 <= i < |b.analyses| ==> Reports(b.analyses[i], s.switch2Keywords, s.purchaseKeywords, emails[i]))
      && w.records <= b.world.records && w.sent <= b.world.sent
    decreases |emails|
  {
    if emails != [] {
      var front := emails[..|emails| - 1];
      var b := Batch(step, front, w);
      BatchSpec(step, s, front, w);
      if b.failure.None? {
        var st := step(emails[|emails| - 1], b.world);
        assert Kept(s, emails[|emails| - 1], b.world, st);
        PrefixChain(w.records, b.world.records, st.world.records);
        PrefixChain(w.sent, b.world.sent, st.world.sent);
      }
    }
  }

  /** Two writes and then a third, the third attempted only when both
      earlier ones got through. */
  lemma AskThenLearn(reachable: nat -> bool, c: nat, chat: seq<Record>, learned: Record)
    requires |chat| == 2
    ensures var k2 := Landed(reachable, c, 2); var k := Landed(reachable, c, 3);
      && (k2 < 2 ==> k == k2 && (chat + [learned])[..k] == chat[..k2])
      && (k2 == 2 ==> && k == 2 + (if Answered(reachable, c + 4) then 1 else 0)
                      && (chat + [learned])[..k] == chat[..2] + if Answered(reachable, c + 4) then [learned] else [])
  {
    LandedExtend(reachable, c, 2);
    var k2 := Landed(reachable, c, 2);
    if k2 < 2 {
      assert (chat + [learned])[..k2] == chat[..k2];
    } else if Answered(reachable, c + 4) {
      assert chat + [learned] == chat[..2] + [learned];
    } else {
      assert (chat + [learned])[..2] == chat[..2];
    }
  }

  /** A prefix of a prefix is a prefix. */
  lemma PrefixChain<T>(a: seq<T>, b: seq<T>, c: seq<T>)
    requires a <= b && b <= c
    ensures a <= c
  {
    assert c[..|a|] == b[..|a|];
  }

  class Monitor {
    const agent: MemoryAwareAgent
    const api: Gmail.GmailApi
    const codecs: Gmail.Codecs
    const nintendoSenders: seq<string>
    const switch2Keywords: seq<string>
    const purchaseKeywords: seq<string>
    var alertConfigs: seq<AlertConfig>
    /** Every alert sent so far, in order. */
    var dispatched: seq<Dispatch>

    /** A monitor with the default senders and keyword lists and no alert
        configurations. */
    constructor (agent: MemoryAwareAgent, api: Gmail.GmailApi, codecs: Gmail.Codecs)
      ensures this.agent == agent && this.api == api && this.codecs == codecs
      ensures nintendoSenders == NintendoSenders && switch2Keywords == Switch2Keywords
      ensures purchaseKeywords == PurchaseKeywords
      ensures alertConfigs == [] && dispatched == []
    {
      this.agent := agent;
      this.api := api;
      this.codecs := codecs;
      nintendoSenders := NintendoSenders;
      switch2Keywords := Switch2Keywords;
      purchaseKeywords := PurchaseKeywords;
      alertConfigs := [];
      dispatched := [];
    }

    /** add_alert_config: configurations are kept in the order they were added. */
    method AddAlertConfig(c: AlertConfig)
      modifies this`alertConfigs
      ensures alertConfigs == old(alertConfigs) + [c]
    {
      alertConfigs := alertConfigs + [c];
    }

    /** The state an analysis changes. */
    function State(): World
      reads this, agent.store
    {
      World(agent.store.records, agent.store.draws, agent.store.calls, dispatched)
    }

    function Rules(): Settings
      reads this
    {
      Settings(switch2Keywords, purchaseKeywords, alertConfigs)
    }

    /** The store's oracles together with the ones each call is given. */
    function Env(nearest: Ranker, complete: Completion, scoreText: real -> string, deliver: Delivery, now: string)
      : Oracles
    {
      Oracles(agent.store.reachable, agent.store.uuid4, nearest, complete, scoreText, deliver, now)
    }

    /** The loop over the configurations shared by both handlers: each one
        that receives alerts of this urgency gets the alert. */
    method Broadcast(alert: Alert, deliver: Delivery)
      modifies this`dispatched
      ensures dispatched == old(dispatched) + Dispatches(Recipients(alertConfigs, alert.urgency), alert, deliver)
    {
      for i := 0 to |alertConfigs|
        invariant dispatched == old(dispatched) + Dispatches(Recipients(alertConfigs[..i], alert.urgency), alert, deliver)
      {
        var c := alertConfigs[i];
        BroadcastStep(old(dispatched), alertConfigs, i, alert, deliver);
        if Receives(c, alert.urgency) {
          dispatched := dispatched + [Dispatch(c, alert, SendAlert(c, alert, deliver))];
        }
      }
      assert alertConfigs[..|alertConfigs|] == alertConfigs;
    }

    /** _handle_switch2_email_found: ask the agent, alert every enabled
        channel, and store the alert as a learning of importance 1.0. A
        failing recall or completion raises before anything is written or
        sent; a failing write raises after the writes before it. */
    method HandlePurchase(email: Gmail.MessageDetail, s2: seq<string>, p: seq<string>, now: string,
                          nearest: Ranker, complete: Completion, scoreText: real -> string, deliver: Delivery)
      returns (r: Outcome<Failure>)
      requires agent.store.Valid()
      modifies this`dispatched, agent.store
      ensures agent.store.Valid()
      ensures Run(r, State()) == HandleStep(Env(nearest, complete, scoreText, deliver, now), alertConfigs, email, s2, p,
                                            old(State()))
    {
      var analysis := agent.RunAgent(AnalysisGoal, nearest, complete, scoreText, now, context := EmailContext(email, s2, p));
      if analysis.Err? {
        return Fail(analysis.error);
      }
      var alert := PurchaseAlertData(email, s2, p, analysis.value);
      Broadcast(alert, deliver);
      AlertLearningStored(agent.store.uuid4(agent.store.draws), email, alert, now);
      r := agent.AddLearning(LearningText(email), now, AlertScore, AlertMetadata(alert));
    }

    /** _handle_switch2_mention: alert only the enabled console and file channels. */
    method HandleMention(email: Gmail.MessageDetail, s2: seq<string>, deliver: Delivery)
      modifies this`dispatched
      ensures dispatched == old(dispatched)
        + Dispatches(Recipients(alertConfigs, Medium), MentionAlertData(email, s2), deliver)
    {
      Broadcast(MentionAlertData(email, s2), deliver);
    }

    /** The observation every analysed email ends with, of importance 0.3,
        and the verdict reported once it is stored. */
    method Conclusion(email: Gmail.MessageDetail, s2: seq<string>, p: seq<string>, now: string,
                      nearest: Ranker, complete: Completion, scoreText: real -> string, deliver: Delivery)
      returns (r: Result<Analysis, Failure>)
      requires agent.store.Valid()
      modifies agent.store
      ensures agent.store.Valid()
      ensures Run(r, State()) == Conclude(Env(nearest, complete, scoreText, deliver, now), email, s2, p, old(State()))
    {
      var observed := agent.AddObservation(ObservationText(email), now, ObservationScore,
                                           ObservationMetadata(email, s2, p));
      r := if observed.Pass? then Ok(Analyzed(Classify(s2, p))) else Err(observed.error);
    }

    /** A purchase alert: the handler, then the observation unless the handler raised. */
    method RespondToPurchase(email: Gmail.MessageDetail, s2: seq<string>, p: seq<string>, now: string,
                             nearest: Ranker, complete: Completion, scoreText: real -> string, deliver: Delivery)
      returns (r: Result<Analysis, Failure>)
      requires agent.store.Valid()
      modifies this`dispatched, agent.store
      ensures agent.store.Valid()
      ensures Run(r, State()) == PurchaseStep(Env(nearest, complete, scoreText, deliver, now), alertConfigs, email, s2, p,
                                              old(State()))
    {
      var handled := HandlePurchase(email, s2, p, now, nearest, complete, scoreText, deliver);
      if handled.Fail? {
        return Err(handled.error);
      }
      r := Conclusion(email, s2, p, now, nearest, complete, scoreText, deliver);
    }

    /** A mention or nothing: the mention handler if any, then the observation. */
    method RespondToNotice(email: Gmail.MessageDetail, s2: seq<string>, p: seq<string>, now: string,
                           nearest: Ranker, complete: Completion, scoreText: real -> string, deliver: Delivery)
      returns (r: Result<Analysis, Failure>)
      requires agent.store.Valid()
      modifies this`dispatched, agent.store
      ensures agent.store.Valid()
      ensures Run(r, State()) == NoticeStep(Env(nearest, complete, scoreText, deliver, now), alertConfigs, email, s2, p,
                                            old(State()))
    {
      if Classify(s2, p).Mention? {
        HandleMention(email, s2, deliver);
      }
      r := Conclusion(email, s2, p, now, nearest, complete, scoreText, deliver);
    }

    /** The rest of the analysis, once the email is known to be new. */
    method Respond(email: Gmail.MessageDetail, s2: seq<string>, p: seq<string>, now: string, nearest: Ranker,
                   complete: Completion, scoreText: real -> string, deliver: Delivery)
      returns (r: Result<Analysis, Failure>)
      requires agent.store.Valid()
      modifies this`dispatched, agent.store
      ensures agent.store.Valid()
      ensures Run(r, State()) == ResponseStep(Env(nearest, complete, scoreText, deliver, now), alertConfigs, email, s2, p,
                                               old(State()))
    {
      if Classify(s2, p).PurchaseAlert? {
        r := RespondToPurchase(email, s2, p, now, nearest, complete, scoreText, deliver);
      } else {
        r := RespondToNotice(email, s2, p, now, nearest, complete, scoreText, deliver);
      }
    }

    /** _analyze_email_for_switch2: skip an email the store already remembers
        processing; otherwise handle its verdict and record one observation
        of importance 0.3. A store error raises out of the analysis. */
    method AnalyzeEmail(email: Gmail.MessageDetail, now: string, nearest: Ranker, complete: Completion,
                        scoreText: real -> string, deliver: Delivery)
      returns (r: Result<Analysis, Failure>)
      requires agent.store.Valid()
      modifies this`dispatched, agent.store
      ensures agent.store.Valid()
      ensures Run(r, State()) == AnalysisStep(Env(nearest, complete, scoreText, deliver, now), Rules(), email,
                                              old(State()))
    {
      var seen := AlreadyProcessed(email, nearest);
      if seen.Err? {
        return Err(seen.error);
      }
      if seen.value {
        return Ok(Skipped);
      }
      var content := EmailContent(email.subject, email.bodyClean);
      var s2, p := Matches(switch2Keywords, content), Matches(purchaseKeywords, content);
      r := Respond(email, s2, p, now, nearest, complete, scoreText, deliver);
    }

    /** The search for the email's dedup query, its one nearest hit kept
        when close enough. */
    method AlreadyProcessed(email: Gmail.MessageDetail, nearest: Ranker) returns (r: Result<bool, Failure>)
      modifies agent.store`calls
      ensures Run(r, State()) == DedupStep(agent.store.reachable, nearest, email, old(State()))
    {
      var hits := agent.store.SearchMemories(DedupQuery(email.id), nearest, limit := 1);
      r := if hits.Err? then Err(hits.error) else Ok(hits.value != []);
    }

    /** _check_for_switch2_emails: list up to 50 messages from the Nintendo
        senders since yesterday and analyse them in order. A listing that
        raises, or the first analysis that does, ends the check (it is
        caught and logged there), so the emails after it are left for the
        next check. */
    method CheckForEmails(yesterday: Date, now: string, nearest: Ranker, complete: Completion,
                          scoreText: real -> string, deliver: Delivery)
      returns (analyses: seq<Analysis>, failure: Option<CheckFailure>)
      requires agent.store.Valid()
      modifies this`dispatched, agent.store
      ensures agent.store.Valid()
      ensures match Gmail.Listing(api, codecs, MailQuery(nintendoSenders, yesterday), MaxEmails)
        case Err(e) => analyses == [] && failure == Some(ListingRaised(e)) && State() == old(State())
        case Ok(emails) =>
          var b := Batch(Analyzing(Env(nearest, complete, scoreText, deliver, now), Rules()), emails, old(State()));
          && analyses == b.analyses && State() == b.world
          && failure == if b.failure.Some? then Some(AnalysisRaised(b.failure.value)) else None
    {
      var listed := Gmail.GetMessages(api, codecs, MailQuery(nintendoSenders, yesterday), MaxEmails);
      if listed.Err? {
        return [], Some(ListingRaised(listed.error));
      }
      var emails := listed.value;
      ghost var o := Env(nearest, complete, scoreText, deliver, now);
      analyses, failure := [], None;
      var i := 0;
      while i < |emails|
        invariant 0 <= i <= |emails|
        invariant agent.store.Valid()
        invariant Batch(Analyzing(o, Rules()), emails[..i], old(State())) == Checked(analyses, None, State())
      {
        BatchNext(Analyzing(o, Rules()), emails, i, old(State()));
        var r := AnalyzeEmail(emails[i], now, nearest, complete, scoreText, deliver);
        if r.Err? {
          assert emails == emails[..i + 1] + emails[i + 1..];
          BatchStops(Analyzing(o, Rules()), emails[..i + 1], emails[i + 1..], old(State()));
          return analyses, Some(AnalysisRaised(r.error));
        }
        analyses := analyses + [r.value];
        i := i + 1;
      }
      assert emails[..i] == emails;
    }
  }
}
