/**
 * The simple discovery server: `/prepare-call/:phone` builds the prompt with
 * a context section for the caller and reports the next question; a
 * completed call longer than 30 seconds is recorded, and one longer than 60
 * seconds marks the next question.
 */
module MemorySimple {
  import opened Text
  import opened Discovery
  import opened CallerStore

  /** `getOrCreateCaller`: the record starts with no `last_call` field. */
  method GetOrCreateCaller(store: Store, phone: string, now: string) returns (c: Caller)
    modifies store
    ensures store.callers == GetOrCreateIn(old(store.callers), phone, NewCaller(phone, now, false))
    ensures c == store.callers[phone]
    ensures store.lastUpdate == old(store.lastUpdate)
  {
    c := store.GetOrCreate(phone, NewCaller(phone, now, false));
  }

  // ---------------------------------------------------------------------------
  // generateDynamicPrompt
  // ---------------------------------------------------------------------------

  const Banner: string := "\n\n--- CONVERSATION CONTEXT ---\n"
  const NewCallerText: string :=
    "This is a new caller. " + "Welcome them warmly and begin with the first discovery question.\n"
  const CompleteText: string := "ALL QUESTIONS COMPLETE. " + "Thank them for their valuable insights.\n"
  const ChecklistHeader: string := "\n--- TIER 1 DISCOVERY QUESTIONS ---\n"

  /** Only ids among Q1..Q4 get a line (`if (q)`); a missing note prints as "Discussed". */
  const Style: LineStyle := LineStyle("✓ ", true, Some("Discussed"))

  function Header(c: Caller): string {
    "RETURNING CALLER (Call #" + NatToString(c.callCount + 1) + ")\n\n"
  }

  function Covered(c: Caller): string {
    if |c.answered| > 0 then "QUESTIONS ALREADY COVERED:\n" + ProgressText(Style, c, c.answered) + "\n" else ""
  }

  function NextBlock(q: Question): string {
    "NEXT QUESTION TO ASK:\n" + q.id + " - " + q.short + "\n" + "\"" + q.full + "\"\n"
  }

  /** What a returning caller is asked: the question at index `|questions_answered|`, or the completion text. */
  function Ask(c: Caller): string {
    if |c.answered| < |Tier1| then NextBlock(Tier1[|c.answered|]) else CompleteText
  }

  function Status(c: Caller): string {
    if c.callCount == 0 then NewCallerText else Header(c) + Covered(c) + Ask(c)
  }

  /** One entry of the question list; it does not depend on the caller's progress. */
  function Item(i: nat, q: Question, answered: bool): string {
    "\n" + q.id + ": " + q.short + "\n" + "\"" + q.full + "\"\n"
  }

  /** `generateDynamicPrompt(caller)`, with the base prompt passed in. */
  function DynamicPrompt(basePrompt: string, c: Caller): string {
    basePrompt + Banner + Status(c) + ChecklistHeader + Checklist(c, Item)
  }

  /**
   * A caller gets the new-caller text exactly when `call_count` is 0;
   * otherwise the call number `call_count + 1`, then the question at index
   * `|questions_answered|` or, with four answers, the completion text.
   */
  lemma StatusCases(c: Caller)
    ensures Status(c) == NewCallerText <==> c.callCount == 0
    ensures c.callCount > 0 ==> StartsWith(Status(c), Header(c)) && EndsWith(Status(c), Ask(c))
    ensures Ask(c) == if |c.answered| < 4 then NextBlock(Tier1[|c.answered|]) else CompleteText
  {
    if c.callCount > 0 {
      AffixesOfConcat3(Header(c), Covered(c), Ask(c));
      assert NewCallerText[0] == 'T';
    }
  }

  /** Answered ids outside Q1..Q4 are skipped; a known id gets its short label and its note or "Discussed". */
  lemma OnlyKnownListed(c: Caller, id: string)
    ensures ProgressLine(Style, c, id).Some? <==> id in Tier1Ids
    ensures id in Tier1Ids ==>
      ProgressLine(Style, c, id) == Some("✓ " + Find(id).value.short + ": " + OrElse(NoteOf(c, id), "Discussed") + "\n")
  {
  }

  /** The question list does not depend on the caller's progress. */
  lemma ChecklistIgnoresProgress(c: Caller, d: Caller)
    ensures Checklist(c, Item) == Checklist(d, Item)
  {
    ChecklistSpec(c, Item);
    ChecklistSpec(d, Item);
  }

  /** All four questions are listed, in definition order. */
  lemma ChecklistFixed(c: Caller)
    ensures Checklist(c, Item) == Item(0, Tier1[0], false) + Item(1, Tier1[1], false) + Item(2, Tier1[2], false) + Item(3, Tier1[3], false)
  {
    ChecklistSpec(c, Item);
  }

  // ---------------------------------------------------------------------------
  // /prepare-call/:phone
  // ---------------------------------------------------------------------------

  /** `next_question`: the short label at index `|questions_answered|`, or "All complete". */
  function NextLabel(c: Caller): (r: string)
    ensures |c.answered| < 4 ==> r == Tier1[|c.answered|].short
    ensures |c.answered| >= 4 ==> r == "All complete"
  {
    var q := NextQuestion(c);
    if q.Some? then q.value.short else "All complete"
  }

  /** The reported next question is the one the prompt asks. */
  lemma NextLabelMatchesPrompt(c: Caller)
    requires c.callCount > 0 && |c.answered| < 4
    ensures EndsWith(Status(c), NextBlock(Tier1[|c.answered|]))
    ensures NextLabel(c) == Tier1[|c.answered|].short
  {
    StatusCases(c);
  }

  /**
   * `/prepare-call/:phone`: fetches or creates the record, builds the prompt
   * and reports the next question.
   */
  method PrepareCall(store: Store, phone: string, now: string, basePrompt: string)
    returns (prompt: string, nextQuestion: string)
    modifies store
    ensures store.callers == GetOrCreateIn(old(store.callers), phone, NewCaller(phone, now, false))
    ensures store.lastUpdate == old(store.lastUpdate)
    ensures prompt == DynamicPrompt(basePrompt, store.callers[phone])
    ensures nextQuestion == NextLabel(store.callers[phone])
  {
    var c := GetOrCreateCaller(store, phone, now);
    prompt := DynamicPrompt(basePrompt, c);
    nextQuestion := if |c.answered| < |Tier1| then Tier1[|c.answered|].short else "All complete";
  }

  // ---------------------------------------------------------------------------
  // /call-status
  // ---------------------------------------------------------------------------

  /** The three conditions under which a status event records the call. */
  predicate Accepts(m: map<string, Caller>, callStatus: string, from: string, duration: string) {
    callStatus == "completed" && ParsedAbove(duration, 30) && from in m
  }

  /** The note names the raw `Duration` field. */
  function DurationNote(duration: string): string {
    "Discussed in " + duration + "s call"
  }

  /** The caller map after `/call-status`; the history entry carries `parseInt(Duration)`. */
  function AfterCallStatus(m: map<string, Caller>, callSid: string, callStatus: string, from: string,
                           duration: string, now: string): map<string, Caller>
  {
    if Accepts(m, callStatus, from, duration) then
      var d := ParseInt(duration).value;
      m[from := CompleteCall(m[from], TimedCall(callSid, now, Duration.Seconds(d)), None, d, DurationNote(duration))]
    else m
  }

  /**
   * The store changes exactly when the call is accepted; then only the
   * caller's record changes, gaining one call and one history entry, and
   * `call_count == |call_history|` and the duration path are kept.
   */
  lemma CallStatusSpec(m: map<string, Caller>, callSid: string, callStatus: string, from: string,
                       duration: string, now: string)
    ensures var r := AfterCallStatus(m, callSid, callStatus, from, duration, now);
      && (r == m <==> !Accepts(m, callStatus, from, duration))
      && r.Keys == m.Keys
      && (forall p :: p in m && p != from ==> r[p] == m[p])
      && (AllCountsAgree(m) ==> AllCountsAgree(r))
      && (Accepts(m, callStatus, from, duration) ==>
            && r[from].callCount == m[from].callCount + 1
            && |r[from].history| == |m[from].history| + 1
            && (|r[from].answered| > |m[from].answered| <==> ParsedAbove(duration, 60) && |m[from].answered| < 4)
            && (OnDurationPath(m[from]) ==> OnDurationPath(r[from]))
            && (ParsedAbove(duration, 60) && |m[from].answered| < 4 ==>
                  && r[from].answered == m[from].answered + [Tier1Ids[|m[from].answered|]]
                  && NoteOf(r[from], Tier1Ids[|m[from].answered|]) == Some(DurationNote(duration)))
            && (!(ParsedAbove(duration, 60) && |m[from].answered| < 4) ==> r[from].answered == m[from].answered))
  {
    if Accepts(m, callStatus, from, duration) {
      var d := ParseInt(duration).value;
      var entry := TimedCall(callSid, now, Duration.Seconds(d));
      CompleteCallSpec(m[from], entry, None, d, DurationNote(duration));
      DurationAppendOnly(RecordCall(m[from], entry, None), d, DurationNote(duration));
      if d > 60 && |m[from].answered| < 4 {
        DurationMarksByCount(RecordCall(m[from], entry, None), d, DurationNote(duration));
      }
      var r := AfterCallStatus(m, callSid, callStatus, from, duration, now);
      assert r[from] != m[from];
    }
  }

  /** `/call-status`: always answers 200. */
  method CallStatus(store: Store, callSid: string, callStatus: string, from: string, duration: string, now: string)
    returns (status: int)
    modifies store
    ensures status == 200
    ensures store.callers == AfterCallStatus(old(store.callers), callSid, callStatus, from, duration, now)
    ensures store.lastUpdate == old(store.lastUpdate)
  {
    if callStatus == "completed" && ParsedAbove(duration, 30) && from in store.callers {
      var c := store.callers[from];
      var d := ParseInt(duration).value;
      c := c.(callCount := c.callCount + 1, history := c.history + [TimedCall(callSid, now, Duration.Seconds(d))]);
      if d > 60 && |c.answered| < |Tier1| {
        var q := Tier1[|c.answered|];
        c := c.(answered := c.answered + [q.id], notes := c.notes[q.id := DurationNote(duration)]);
      }
      store.Put(from, c);
    }
    status := 200;
  }

  // ---------------------------------------------------------------------------
  // /mark-answered and /reset
  // ---------------------------------------------------------------------------

  /** `/mark-answered`: no argument check; 404 for an unknown caller, else 200, and never a duplicate id. */
  method MarkAnswered(store: Store, phone: string, questionId: string, notes: Option<string>)
    returns (status: int)
    modifies store
    ensures status == (if phone in old(store.callers) then 200 else 404)
    ensures store.callers == if status == 200
      then MarkIn(old(store.callers), phone, questionId, OrElse(notes, "Manually marked")).value
      else old(store.callers)
    ensures store.lastUpdate == old(store.lastUpdate)
  {
    var found := store.Mark(phone, questionId, OrElse(notes, "Manually marked"));
    status := if found then 200 else 404;
  }

  /** `/reset/:phone`: deletes the record, or 404. */
  method Reset(store: Store, phone: string) returns (status: int)
    modifies store
    ensures status == (if phone in old(store.callers) then 200 else 404)
    ensures store.callers == if status == 200 then ResetIn(old(store.callers), phone).value else old(store.callers)
    ensures store.lastUpdate == old(store.lastUpdate)
  {
    var found := store.Reset(phone);
    status := if found then 200 else 404;
  }
}
