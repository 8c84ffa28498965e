/**
 * The Vapi memory server: one webhook routes assistant requests, end-of-call
 * reports and live transcript updates. An end-of-call report appends the
 * normalised dialogue to the customer's call history and recomputes a
 * summary of the last three calls; an assistant request injects that summary
 * into the system prompt of a returning customer.
 */
module VapiMemory {
  import opened Text

  // ---------------------------------------------------------------------------
  // Records
  // ---------------------------------------------------------------------------

  /** One dialogue entry as stored: its `role` and its `message` (`None` is `undefined`). */
  datatype Turn = Turn(role: Option<string>, message: Option<string>)

  /**
   * One `callHistory` entry. Of the stored `metadata` only `summary` is used;
   * `metadataSummary` is `None` when `metadata` or its `summary` is absent.
   */
  datatype CallRecord = CallRecord(callId: Option<string>, date: string, transcript: seq<Turn>,
                                   metadataSummary: Option<string>)

  datatype Customer = Customer(phoneNumber: string, firstCall: string, callHistory: seq<CallRecord>,
                               conversationSummary: string)

  // ---------------------------------------------------------------------------
  // buildConversationSummary
  // ---------------------------------------------------------------------------

  /** `${value}` of a possibly undefined string. */
  function Render(o: Option<string>): string {
    if o.Some? then o.value else "undefined"
  }

  /** One dialogue line: "User" for role `user`, "Assistant" for every other role. */
  function DialogueLine(t: Turn): string {
    (if t.role == Some("user") then "User" else "Assistant") + ": " + Render(t.message)
  }

  function DialogueLines(ts: seq<Turn>): (r: seq<string>)
    ensures |r| == |ts|
  {
    if |ts| == 0 then [] else [DialogueLine(ts[0])] + DialogueLines(ts[1..])
  }

  /** The whole dialogue of a call, one line per entry, joined with newlines. */
  function Dialogue(ts: seq<Turn>): string {
    Join(DialogueLines(ts), "\n")
  }

  const MaxDialogue: nat := 800

  /** The "Summary:" paragraph, present only for a truthy metadata summary. */
  function SummaryParagraph(call: CallRecord): string {
    if Truthy(call.metadataSummary) then "Summary: " + call.metadataSummary.value + "\n\n" else ""
  }

  /** The section of the call at window position `i`, numbered `i + 1`; `dateOf` is `toLocaleDateString`. */
  function CallSection(i: nat, call: CallRecord, dateOf: string -> string): string {
    "Call " + NatToString(i + 1) + " (" + dateOf(call.date) + "):\n"
      + SummaryParagraph(call) + Ellipsize(Dialogue(call.transcript), MaxDialogue) + "\n\n"
  }

  function CallSections(calls: seq<CallRecord>, dateOf: string -> string, i: nat): string
    decreases |calls| - i
  {
    if i >= |calls| then "" else CallSection(i, calls[i], dateOf) + CallSections(calls, dateOf, i + 1)
  }

  function Opening(n: nat): string {
    "PREVIOUS CONVERSATION HISTORY:\n" + "This caller has called " + NatToString(n) + " time(s) before.\n\n"
  }

  const ImportantText: string :=
    "\nIMPORTANT: Reference specific details from the previous conversation history above. "
    + "The caller expects you to remember what they shared.\n"

  /** `buildConversationSummary(recentCalls)`. */
  function BuildSummary(calls: seq<CallRecord>, dateOf: string -> string): string {
    if |calls| == 0 then "" else Opening(|calls|) + CallSections(calls, dateOf, 0) + ImportantText
  }

  /** `callHistory.slice(-3)`. */
  function Window(h: seq<CallRecord>): (r: seq<CallRecord>)
    ensures |r| == if |h| < 3 then |h| else 3
    ensures h == h[..|h| - |r|] + r
  {
    if |h| < 3 then h else h[|h| - 3..]
  }

  /**
   * The summary is empty exactly when there are no calls; otherwise it opens
   * with the number of calls given (the window size, not the total) and
   * closes with the reminder to use the history.
   */
  lemma SummaryShape(calls: seq<CallRecord>, dateOf: string -> string)
    ensures BuildSummary(calls, dateOf) == "" <==> |calls| == 0
    ensures |calls| > 0 ==>
      StartsWith(BuildSummary(calls, dateOf), Opening(|calls|)) && EndsWith(BuildSummary(calls, dateOf), ImportantText)
  {
    if |calls| > 0 {
      AffixesOfConcat3(Opening(|calls|), CallSections(calls, dateOf, 0), ImportantText);
    }
  }

  /** The sections of the calls from window position `i` on, each numbered by its position plus one. */
  function Sections(calls: seq<CallRecord>, dateOf: string -> string, i: nat): (r: seq<string>)
    requires i <= |calls|
    ensures |r| == |calls| - i
    ensures forall k :: 0 <= k < |r| ==> r[k] == CallSection(i + k, calls[i + k], dateOf)
  {
    seq(|calls| - i, k requires 0 <= k < |calls| - i => CallSection(i + k, calls[i + k], dateOf))
  }

  /** The sections are the calls' sections in window order, numbered from 1. */
  lemma {:induction false} CallSectionsOrder(calls: seq<CallRecord>, dateOf: string -> string, i: nat)
    requires i <= |calls|
    ensures CallSections(calls, dateOf, i) == Concat(Sections(calls, dateOf, i))
    decreases |calls| - i
  {
    if i < |calls| {
      CallSectionsOrder(calls, dateOf, i + 1);
      SectionsTail(calls, dateOf, i);
    }
  }

  lemma SectionsTail(calls: seq<CallRecord>, dateOf: string -> string, i: nat)
    requires i < |calls|
    ensures Concat(Sections(calls, dateOf, i)) == CallSection(i, calls[i], dateOf) + Concat(Sections(calls, dateOf, i + 1))
  {
    var s := Sections(calls, dateOf, i);
    assert s[1..] == Sections(calls, dateOf, i + 1);
  }

  /** A summary of a stored history covers at most its last three calls and never claims more than three. */
  lemma WindowedSummary(h: seq<CallRecord>, dateOf: string -> string)
    requires |h| > 0
    ensures StartsWith(BuildSummary(Window(h), dateOf), Opening(if |h| < 3 then |h| else 3))
  {
    SummaryShape(Window(h), dateOf);
  }

  /** Dialogue lines follow the transcript order, each labelled by its role. */
  lemma {:induction false} DialogueLinesSpec(ts: seq<Turn>)
    ensures forall i :: 0 <= i < |ts| ==> DialogueLines(ts)[i] == DialogueLine(ts[i])
  {
    if |ts| > 0 {
      DialogueLinesSpec(ts[1..]);
    }
  }

  /** Role `user` is labelled "User"; every other role, an absent one included, "Assistant". */
  lemma DialogueLabels(t: Turn)
    ensures t.role == Some("user") ==> StartsWith(DialogueLine(t), "User: ")
    ensures t.role != Some("user") ==> StartsWith(DialogueLine(t), "Assistant: ")
  {
  }

  /**
   * A call's section has a "Summary:" paragraph exactly when its metadata
   * summary is truthy, and its dialogue over 800 characters is cut to the
   * first 800 plus "...".
   */
  lemma CallSectionParts(i: nat, call: CallRecord, dateOf: string -> string)
    ensures var d := Dialogue(call.transcript);
      var head := "Call " + NatToString(i + 1) + " (" + dateOf(call.date) + "):\n";
      && (Truthy(call.metadataSummary) <==> SummaryParagraph(call) != "")
      && (|d| > MaxDialogue ==> CallSection(i, call, dateOf) == head + SummaryParagraph(call) + d[..MaxDialogue] + "..." + "\n\n")
      && (|d| <= MaxDialogue ==> CallSection(i, call, dateOf) == head + SummaryParagraph(call) + d + "\n\n")
  {
  }

  // ---------------------------------------------------------------------------
  // Webhook payloads
  // ---------------------------------------------------------------------------

  /** A message as Vapi sends it in an artifact. */
  datatype RawMessage = RawMessage(role: Option<string>, content: Option<string>, message: Option<string>)

  datatype Artifact = Artifact(transcript: Option<string>, messagesOpenAIFormatted: Option<seq<RawMessage>>,
                               messages: Option<seq<RawMessage>>)

  /** `call`, reduced to its `id` and `customer.number`. */
  datatype CallInfo = CallInfo(id: Option<string>, customerNumber: Option<string>)

  /** The fields read from `req.body.message`, or from `req.body` itself. */
  datatype Envelope = Envelope(messageType: Option<string>, call: Option<CallInfo>, customerNumber: Option<string>,
                               artifact: Option<Artifact>, summary: Option<string>)

  datatype Body = Body(message: Option<Envelope>, top: Envelope)

  function CallNumber(call: Option<CallInfo>): Option<string> {
    if call.Some? then call.value.customerNumber else None
  }

  /** `req.body.message?.type || req.body.type`. */
  function MessageType(b: Body): Option<string> {
    OrChain([if b.message.Some? then b.message.value.messageType else None, b.top.messageType])
  }

  datatype Route = EndOfCall | TranscriptUpdate | AssistantRequest | Unknown

  function RouteOf(b: Body): (r: Route)
    ensures r == EndOfCall <==> MessageType(b) == Some("end-of-call-report")
    ensures r == TranscriptUpdate <==> MessageType(b) == Some("transcript")
    ensures r == AssistantRequest <==> MessageType(b) == Some("assistant-request")
  {
    var t := MessageType(b);
    if t == Some("end-of-call-report") then EndOfCall
    else if t == Some("transcript") then TranscriptUpdate
    else if t == Some("assistant-request") then AssistantRequest
    else Unknown
  }

  /** The message's own type is used whenever it is truthy; the top-level type only otherwise. */
  lemma MessageTypeFallback(b: Body)
    ensures b.message.Some? && Truthy(b.message.value.messageType) ==> MessageType(b) == b.message.value.messageType
    ensures !(b.message.Some? && Truthy(b.message.value.messageType)) ==> MessageType(b) == b.top.messageType
  {
    var chain := [if b.message.Some? then b.message.value.messageType else None, b.top.messageType];
    assert MessageType(b) == OrChain(chain);
    if !Truthy(chain[0]) {
      assert OrChain(chain) == OrChain(chain[1..]);
      assert chain[1..] == [b.top.messageType];
    }
  }

  /** The caller's number in an assistant request: the first truthy of the three places it may be. */
  function RequestPhone(b: Body): Option<string> {
    OrChain([if b.message.Some? then CallNumber(b.message.value.call) else None,
             if b.message.Some? then b.message.value.customerNumber else None,
             CallNumber(b.top.call)])
  }

  /** `message.call.customer.number` wins whenever it is truthy, then `message.customer.number`, then `call.customer.number`. */
  lemma RequestPhoneChain(b: Body)
    ensures b.message.Some? && Truthy(CallNumber(b.message.value.call)) ==>
      RequestPhone(b) == CallNumber(b.message.value.call)
    ensures b.message.Some? && !Truthy(CallNumber(b.message.value.call)) && Truthy(b.message.value.customerNumber) ==>
      RequestPhone(b) == b.message.value.customerNumber
    ensures b.message.Some? && !Truthy(CallNumber(b.message.value.call)) && !Truthy(b.message.value.customerNumber) ==>
      RequestPhone(b) == CallNumber(b.top.call)
    ensures b.message.None? ==> RequestPhone(b) == CallNumber(b.top.call)
  {
    var chain := [if b.message.Some? then CallNumber(b.message.value.call) else None,
                  if b.message.Some? then b.message.value.customerNumber else None,
                  CallNumber(b.top.call)];
    assert RequestPhone(b) == OrChain(chain);
    if !Truthy(chain[0]) {
      assert OrChain(chain) == OrChain(chain[1..]);
      if !Truthy(chain[1]) {
        assert OrChain(chain[1..]) == OrChain(chain[1..][1..]);
        assert chain[1..][1..] == [CallNumber(b.top.call)];
      }
    }
  }

  /** `artifact.messagesOpenAIFormatted || artifact.messages || []`; an array, even an empty one, is truthy. */
  function MessageSource(a: Artifact): seq<RawMessage> {
    if a.messagesOpenAIFormatted.Some? then a.messagesOpenAIFormatted.value
    else if a.messages.Some? then a.messages.value
    else []
  }

  predicate IsSystem(m: RawMessage) {
    m.role == Some("system")
  }

  /** `{ role: m.role, message: m.content || m.message }`. */
  function ToTurn(m: RawMessage): Turn {
    Turn(m.role, if Truthy(m.content) then m.content else m.message)
  }

  /** The stored dialogue: the non-system messages, in order, each with its content or else its message. */
  function Normalize(ms: seq<RawMessage>): (r: seq<Turn>)
    ensures |r| <= |ms|
  {
    if |ms| == 0 then []
    else (if IsSystem(ms[0]) then [] else [ToTurn(ms[0])]) + Normalize(ms[1..])
  }

  lemma {:induction false} NormalizeAppend(a: seq<RawMessage>, b: seq<RawMessage>)
    ensures Normalize(a + b) == Normalize(a) + Normalize(b)
  {
    if |a| == 0 {
      assert a + b == b;
    } else {
      assert (a + b)[1..] == a[1..] + b;
      NormalizeAppend(a[1..], b);
    }
  }

  /**
   * No stored turn has role `system`, every non-system message is kept, and
   * every stored turn comes from one of them.
   */
  lemma {:induction false} NormalizeMembers(ms: seq<RawMessage>)
    ensures forall t :: t in Normalize(ms) ==> t.role != Some("system")
    ensures forall m :: m in ms && !IsSystem(m) ==> ToTurn(m) in Normalize(ms)
    ensures forall t :: t in Normalize(ms) ==> exists m :: m in ms && !IsSystem(m) && t == ToTurn(m)
  {
    if |ms| > 0 {
      NormalizeMembers(ms[1..]);
      assert ms == [ms[0]] + ms[1..];
      forall t | t in Normalize(ms)
        ensures exists m :: m in ms && !IsSystem(m) && t == ToTurn(m)
      {
        if t !in Normalize(ms[1..]) {
          assert !IsSystem(ms[0]) && t == ToTurn(ms[0]);
        } else {
          var m :| m in ms[1..] && !IsSystem(m) && t == ToTurn(m);
          assert m in ms;
        }
      }
    }
  }

  // ---------------------------------------------------------------------------
  // The customer store
  // ---------------------------------------------------------------------------

  /** The customer map after `saveCallTranscript`. */
  function SaveIn(m: map<string, Customer>, phone: string, call: CallRecord, dateOf: string -> string,
                  now: string): map<string, Customer>
  {
    var c := if phone in m then m[phone] else Customer(phone, now, [], "");
    var h := c.callHistory + [call];
    m[phone := c.(callHistory := h, conversationSummary := BuildSummary(Window(h), dateOf))]
  }

  /**
   * Saving creates the customer on first save and appends exactly one
   * history entry; the summary is rebuilt from the last three calls, the
   * new one last; no other customer changes.
   */
  lemma SaveSpec(m: map<string, Customer>, phone: string, call: CallRecord, dateOf: string -> string, now: string)
    ensures var r := SaveIn(m, phone, call, dateOf, now);
      var before := if phone in m then m[phone].callHistory else [];
      && r.Keys == m.Keys + {phone}
      && (forall p :: p in m && p != phone ==> r[p] == m[p])
      && r[phone].callHistory == before + [call]
      && (phone in m ==> r[phone].firstCall == m[phone].firstCall)
      && (phone !in m ==> r[phone].firstCall == now && r[phone].phoneNumber == phone)
      && r[phone].conversationSummary == BuildSummary(Window(r[phone].callHistory), dateOf)
  {
  }

  /** The rebuilt summary covers the last three calls or fewer, the new one last, and says how many. */
  lemma SaveSummary(before: seq<CallRecord>, call: CallRecord, dateOf: string -> string)
    ensures var w := Window(before + [call]);
      && |w| == (if |before| < 2 then |before| + 1 else 3)
      && w[|w| - 1] == call
      && StartsWith(BuildSummary(w, dateOf), Opening(|w|))
  {
    var h := before + [call];
    SummaryShape(Window(h), dateOf);
    assert h[|h| - 1] == call;
  }

  /** `getCustomerHistory(phone)`; an undefined phone looks up the key "undefined". */
  function FindIn(m: map<string, Customer>, phone: Option<string>): (r: Option<Customer>)
    ensures r.Some? <==> Render(phone) in m
    ensures r.Some? ==> r.value == m[Render(phone)]
  {
    var key := Render(phone);
    if key in m then Some(m[key]) else None
  }

  class Store {
    var customers: map<string, Customer>

    constructor ()
      ensures customers == map[]
    {
      customers := map[];
    }

    /** `saveCallTranscript`. */
    method SaveCallTranscript(phone: string, call: CallRecord, dateOf: string -> string, now: string)
      modifies this
      ensures customers == SaveIn(old(customers), phone, call, dateOf, now)
    {
      if phone !in customers {
        customers := customers[phone := Customer(phone, now, [], "")];
      }
      var c := customers[phone];
      var h := c.callHistory + [call];
      var recent := if |h| < 3 then h else h[|h| - 3..];
      customers := customers[phone := c.(callHistory := h, conversationSummary := BuildSummary(recent, dateOf))];
    }

    /** `DELETE /memory`. */
    method Clear()
      modifies this
      ensures customers == map[]
    {
      customers := map[];
    }
  }

  // ---------------------------------------------------------------------------
  // Handlers
  // ---------------------------------------------------------------------------

  const DefaultGreeting: string :=
    "Hey, this is Baton AI. How you doin'? We help business owners like you preserve what you've built. "
    + "This is a relaxed conversation - we can take as long as you need, or break it into multiple calls. "
    + "Is now a good time?"

  const ReturningGreeting: string := "Hey! Good to hear from you again. " + "Let's pick up where we left off."

  /** The system prompt and first message of the assistant configuration. */
  datatype AssistantReply = AssistantReply(systemPrompt: string, firstMessage: string)

  /** `handleAssistantRequest`'s choice for a stored customer (or none). */
  function Reply(basePrompt: string, customer: Option<Customer>): (r: AssistantReply)
    ensures customer.None? ==> r == AssistantReply(basePrompt, DefaultGreeting)
    ensures customer.Some? ==>
      && StartsWith(r.systemPrompt, basePrompt + "\n\n---\n\n")
      && EndsWith(r.systemPrompt, customer.value.conversationSummary)
      && |r.systemPrompt| == |basePrompt| + 7 + |customer.value.conversationSummary|
      && r.firstMessage == ReturningGreeting
  {
    if customer.None? then AssistantReply(basePrompt, DefaultGreeting)
    else
      var p := basePrompt + "\n\n---\n\n" + customer.value.conversationSummary;
      AffixesOfConcat(basePrompt + "\n\n---\n\n", customer.value.conversationSummary);
      AssistantReply(p, ReturningGreeting)
  }

  /** `req.body.message || req.body`. */
  function EnvelopeOf(b: Body): Envelope {
    if b.message.Some? then b.message.value else b.top
  }

  /** An end-of-call report is saved only with a truthy phone and a truthy `artifact.transcript`. */
  predicate SavesReport(e: Envelope) {
    Truthy(CallNumber(e.call)) && e.artifact.Some? && Truthy(e.artifact.value.transcript)
  }

  /** The history entry an end-of-call report adds. */
  function ReportRecord(e: Envelope, now: string): CallRecord
    requires SavesReport(e)
  {
    CallRecord(e.call.value.id, now, Normalize(MessageSource(e.artifact.value)), Some(OrElse(e.summary, "")))
  }

  /** The customer map after `handleEndOfCall`, which does not look at the message type. */
  function AfterEndOfCall(m: map<string, Customer>, b: Body, dateOf: string -> string, now: string): map<string, Customer> {
    var e := EnvelopeOf(b);
    if SavesReport(e) then SaveIn(m, CallNumber(e.call).value, ReportRecord(e, now), dateOf, now) else m
  }

  /**
   * A report without a truthy phone or transcript changes nothing; otherwise
   * its customer gains exactly one call, the report's, last in its history,
   * and no other customer changes.
   */
  lemma EndOfCallSpec(m: map<string, Customer>, b: Body, dateOf: string -> string, now: string)
    ensures !SavesReport(EnvelopeOf(b)) ==> AfterEndOfCall(m, b, dateOf, now) == m
    ensures SavesReport(EnvelopeOf(b)) ==>
      var e := EnvelopeOf(b);
      var phone := CallNumber(e.call).value;
      var r := AfterEndOfCall(m, b, dateOf, now);
      && r.Keys == m.Keys + {phone}
      && (forall p :: p in m && p != phone ==> r[p] == m[p])
      && r[phone].callHistory == (if phone in m then m[phone].callHistory else []) + [ReportRecord(e, now)]
  {
    var e := EnvelopeOf(b);
    if SavesReport(e) {
      SaveSpec(m, CallNumber(e.call).value, ReportRecord(e, now), dateOf, now);
    }
  }

  /** The customer map after a call to the router: only an end-of-call report reaches `handleEndOfCall`. */
  function AfterWebhook(m: map<string, Customer>, b: Body, dateOf: string -> string, now: string): map<string, Customer> {
    if RouteOf(b) == EndOfCall then AfterEndOfCall(m, b, dateOf, now) else m
  }

  /**
   * Only a savable end-of-call report changes the store, and it adds one
   * call to its customer; assistant requests, transcript updates and unknown
   * types leave the store alone.
   */
  lemma WebhookSpec(m: map<string, Customer>, b: Body, dateOf: string -> string, now: string)
    ensures RouteOf(b) != EndOfCall ==> AfterWebhook(m, b, dateOf, now) == m
    ensures !SavesReport(EnvelopeOf(b)) ==> AfterWebhook(m, b, dateOf, now) == m
    ensures RouteOf(b) == EndOfCall && SavesReport(EnvelopeOf(b)) ==>
      var phone := CallNumber(EnvelopeOf(b).call).value;
      var r := AfterWebhook(m, b, dateOf, now);
      && r.Keys == m.Keys + {phone}
      && |r[phone].callHistory| == (if phone in m then |m[phone].callHistory| else 0) + 1
  {
    if RouteOf(b) == EndOfCall {
      EndOfCallSpec(m, b, dateOf, now);
    }
  }

  /**
   * `handleEndOfCall`: saves a report with a truthy phone and transcript. The
   * router calls it for end-of-call reports, and `POST
   * /webhook/end-of-call-report` calls it directly, whatever the type.
   */
  method HandleEndOfCall(store: Store, b: Body, dateOf: string -> string, now: string)
    modifies store
    ensures store.customers == AfterEndOfCall(old(store.customers), b, dateOf, now)
  {
    var e := if b.message.Some? then b.message.value else b.top;
    var phone := if e.call.Some? then e.call.value.customerNumber else None;
    if Truthy(phone) && e.artifact.Some? && Truthy(e.artifact.value.transcript) {
      var a := e.artifact.value;
      var messages := if a.messagesOpenAIFormatted.Some? then a.messagesOpenAIFormatted.value
                      else if a.messages.Some? then a.messages.value else [];
      var transcript := Normalize(messages);
      var summary := if Truthy(e.summary) then e.summary.value else "";
      store.SaveCallTranscript(phone.value, CallRecord(e.call.value.id, now, transcript, Some(summary)), dateOf, now);
    }
  }

  /**
   * `POST /webhook/assistant-request`: routes by message type. An assistant
   * request gets a reply; every other type is answered 200.
   */
  method Webhook(store: Store, b: Body, basePrompt: string, dateOf: string -> string, now: string)
    returns (reply: Option<AssistantReply>)
    modifies store
    ensures store.customers == AfterWebhook(old(store.customers), b, dateOf, now)
    ensures reply == if RouteOf(b) == AssistantRequest then Some(Reply(basePrompt, FindIn(old(store.customers), RequestPhone(b))))
      else None
  {
    reply := None;
    var kind := RouteOf(b);
    if kind == EndOfCall {
      HandleEndOfCall(store, b, dateOf, now);
    } else if kind == AssistantRequest {
      var customer := FindIn(store.customers, RequestPhone(b));
      reply := Some(Reply(basePrompt, customer));
    }
  }
}
