/**
 * The working discovery server: a completed call longer than 30 seconds is
 * recorded with its parsed duration, a call longer than 60 seconds marks the
 * next question, and the prompt pushed to the voice assistant carries a
 * memory section and a checklist of all four questions.
 */
module MemoryWorking {
  import opened Text
  import opened Discovery
  import opened CallerStore

  /** `getOrCreateCaller`: the record starts with no `last_call` field. */
  method GetOrCreateCaller(store: Store, phone: string, now: string) returns (c: Caller)
    modifies store
    ensures store.callers == GetOrCreateIn(old(store.callers), phone, NewCaller(phone, now, false))
    ensures c == store.callers[phone]
    ensures store.lastUpdate == old(store.lastUpdate)
  {
    c := store.GetOrCreate(phone, NewCaller(phone, now, false));
  }

  // ---------------------------------------------------------------------------
  // /call-status
  // ---------------------------------------------------------------------------

  /** `parseInt(Duration) || 0`. */
  function Seconds(duration: string): int {
    ParseIntOrZero(duration)
  }

  /** The three conditions under which a status event records the call. */
  predicate Accepts(m: map<string, Caller>, callStatus: string, from: string, duration: string) {
    callStatus == "completed" && Seconds(duration) > 30 && from in m
  }

  function DurationNote(seconds: int, now: string): string {
    "Discussed in " + IntToString(seconds) + "s call on " + now
  }

  /** The caller map after `/call-status`; the history entry carries the parsed number of seconds. */
  function AfterCallStatus(m: map<string, Caller>, callSid: string, callStatus: string, from: string,
                           duration: string, now: string): map<string, Caller>
  {
    if Accepts(m, callStatus, from, duration) then
      var d := Seconds(duration);
      m[from := CompleteCall(m[from], TimedCall(callSid, now, Duration.Seconds(d)), None, d, DurationNote(d, now))]
    else m
  }

  /**
   * The store changes exactly when the call is accepted; then only the
   * caller's record changes, gaining one call and one history entry holding
   * the parsed duration, and `call_count == |call_history|`, the Q1..Q4 order
   * of the duration path and the bound of four answers are kept.
   */
  lemma CallStatusSpec(m: map<string, Caller>, callSid: string, callStatus: string, from: string,
                       duration: string, now: string)
    ensures var r := AfterCallStatus(m, callSid, callStatus, from, duration, now);
      && (r == m <==> !Accepts(m, callStatus, from, duration))
      && r.Keys == m.Keys
      && (forall p :: p in m && p != from ==> r[p] == m[p])
      && (AllCountsAgree(m) ==> AllCountsAgree(r))
      && (Accepts(m, callStatus, from, duration) ==>
            && r[from].callCount == m[from].callCount + 1
            && r[from].history == m[from].history + [TimedCall(callSid, now, Duration.Seconds(Seconds(duration)))]
            && r[from].lastCall == m[from].lastCall
            && (|m[from].answered| <= 4 ==> |r[from].answered| <= 4)
            && (OnDurationPath(m[from]) ==> OnDurationPath(r[from]))
            && (Seconds(duration) > 60 && |m[from].answered| < 4 ==>
                  && r[from].answered == m[from].answered + [Tier1Ids[|m[from].answered|]]
                  && NoteOf(r[from], Tier1Ids[|m[from].answered|]) == Some(DurationNote(Seconds(duration), now)))
            && (!(Seconds(duration) > 60 && |m[from].answered| < 4) ==> r[from].answered == m[from].answered))
  {
    if Accepts(m, callStatus, from, duration) {
      var c := m[from];
      var d := Seconds(duration);
      var entry := TimedCall(callSid, now, Duration.Seconds(d));
      CompleteCallSpec(c, entry, None, d, DurationNote(d, now));
      DurationAppendOnly(RecordCall(c, entry, None), d, DurationNote(d, now));
      if d > 60 && |c.answered| < 4 {
        DurationMarksByCount(RecordCall(c, entry, None), d, DurationNote(d, now));
      }
      var r := AfterCallStatus(m, callSid, callStatus, from, duration, now);
      assert r[from] != c;
    }
  }

  /** A status event whose duration is not a number counts as 0 seconds and is ignored. */
  lemma NonNumericDurationIgnored(m: map<string, Caller>, callSid: string, from: string, duration: string, now: string)
    requires ParseInt(duration).None?
    ensures AfterCallStatus(m, callSid, "completed", from, duration, now) == m
  {
  }

  /** `/call-status`: always answers 200. */
  method CallStatus(store: Store, callSid: string, callStatus: string, from: string, duration: string, now: string)
    returns (status: int)
    modifies store
    ensures status == 200
    ensures store.callers == AfterCallStatus(old(store.callers), callSid, callStatus, from, duration, now)
    ensures store.lastUpdate == old(store.lastUpdate)
  {
    if callStatus == "completed" {
      var d := Seconds(duration);
      if d > 30 && from in store.callers {
        var c := store.callers[from];
        c := c.(callCount := c.callCount + 1, history := c.history + [TimedCall(callSid, now, Duration.Seconds(d))]);
        if d > 60 && |c.answered| < |Tier1| {
          var q := Tier1[|c.answered|];
          c := c.(answered := c.answered + [q.id], notes := c.notes[q.id := DurationNote(d, now)]);
        }
        store.Put(from, c);
      }
    }
    status := 200;
  }

  // ---------------------------------------------------------------------------
  // /mark-answered and /reset
  // ---------------------------------------------------------------------------

  /** `/mark-answered`: 400 without a phone or a question id, 404 for an unknown caller, else 200. */
  method MarkAnswered(store: Store, phone: Option<string>, questionId: Option<string>, notes: Option<string>)
    returns (status: int)
    modifies store
    ensures status == 400 <==> !Truthy(phone) || !Truthy(questionId)
    ensures status == 404 <==> Truthy(phone) && Truthy(questionId) && phone.value !in old(store.callers)
    ensures status == 400 || status == 404 || status == 200
    ensures store.callers == if status == 200
      then MarkIn(old(store.callers), phone.value, questionId.value, OrElse(notes, "Manually marked")).value
      else old(store.callers)
    ensures store.lastUpdate == old(store.lastUpdate)
  {
    if !Truthy(phone) || !Truthy(questionId) {
      return 400;
    }
    var found := store.Mark(phone.value, questionId.value, OrElse(notes, "Manually marked"));
    status := if found then 200 else 404;
  }

  /** `/reset/:phone`: deletes the record, or 404. */
  method Reset(store: Store, phone: string) returns (status: int)
    modifies store
    ensures status == (if phone in old(store.callers) then 200 else 404)
    ensures store.callers == if status == 200 then ResetIn(old(store.callers), phone).value else old(store.callers)
    ensures store.lastUpdate == old(store.lastUpdate)
  {
    var found := store.Reset(phone);
    status := if found then 200 else 404;
  }

  // ---------------------------------------------------------------------------
  // The memory section of the prompt (updateHumePromptForCaller)
  // ---------------------------------------------------------------------------

  const Banner: string := "\n\n=== CONVERSATION MEMORY ===\n"
  const NewCallerText: string := "NEW CALLER: " + "Welcome them warmly. Start with Question 1.\n"
  const CompleteText: string := "ALL 4 QUESTIONS COMPLETE!\n" + "Thank them warmly for sharing their critical knowledge.\n"
  const ChecklistHeader: string := "\n=== ALL DISCOVERY QUESTIONS ===\n"

  /** Every answered id gets a line: unknown ids print as themselves and a missing note as "Covered". */
  const Style: LineStyle := LineStyle("✓ ", false, Some("Covered"))

  function Header(c: Caller): string {
    "RETURNING CALLER - Call #" + NatToString(c.callCount + 1) + "\n\n"
  }

  function Covered(c: Caller): string {
    if |c.answered| > 0 then "PREVIOUSLY DISCUSSED:\n" + ProgressText(Style, c, c.answered) + "\n" else ""
  }

  function NextBlock(q: Question): string {
    "TODAY'S QUESTION:\n" + q.short + "\n" + "\"" + q.full + "\"\n"
  }

  /** What a returning caller is asked: the question at index `|questions_answered|`, or the completion text. */
  function Ask(c: Caller): string {
    if |c.answered| < |Tier1| then NextBlock(Tier1[|c.answered|]) else CompleteText
  }

  /** The part of the memory section that depends on the caller's progress. */
  function Status(c: Caller): string {
    if c.callCount == 0 then NewCallerText else Header(c) + Covered(c) + Ask(c)
  }

  /** One checklist entry: `[✓]` for an answered question, `[ ]` otherwise. */
  function Item(i: nat, q: Question, answered: bool): string {
    "\n[" + (if answered then "✓" else " ") + "] Q" + NatToString(i + 1) + ": " + q.short + "\n"
      + "    \"" + q.full + "\"\n"
  }

  lemma ItemFlag(i: nat, q: Question, b: bool)
    ensures Item(i, q, b)[2] == (if b then '✓' else ' ')
  {
    var flag := if b then "✓" else " ";
    assert ("\n[" + flag)[2] == flag[0];
  }

  /** The text appended to the base prompt. */
  function Context(c: Caller): string {
    Banner + Status(c) + ChecklistHeader + Checklist(c, Item)
  }

  /**
   * A caller gets the new-caller text exactly when `call_count` is 0;
   * otherwise the call number `call_count + 1`, then the question at index
   * `|questions_answered|` or, with four answers, the completion text.
   */
  lemma StatusCases(c: Caller)
    ensures Status(c) == NewCallerText <==> c.callCount == 0
    ensures c.callCount > 0 ==> StartsWith(Status(c), Header(c))
    ensures c.callCount > 0 ==> EndsWith(Status(c), Ask(c))
    ensures Ask(c) == if |c.answered| < 4 then NextBlock(Tier1[|c.answered|]) else CompleteText
  {
    if c.callCount > 0 {
      StatusReturning(c);
      assert NewCallerText[0] == 'N';
    }
  }

  lemma StatusReturning(c: Caller)
    requires c.callCount > 0
    ensures StartsWith(Status(c), Header(c)) && Status(c)[0] == 'R'
    ensures EndsWith(Status(c), Ask(c))
  {
    AffixesOfConcat3(Header(c), Covered(c), Ask(c));
  }

  /** Every answered id yields exactly one line, known or not, with "Covered" for a missing or empty note. */
  lemma EveryAnswerListed(c: Caller, id: string)
    ensures ProgressLine(Style, c, id) ==
      Some("✓ " + (if id in Tier1Ids then Find(id).value.short else id) + ": " + OrElse(NoteOf(c, id), "Covered") + "\n")
  {
  }

  /** The checklist marks exactly the answered questions, in definition order. */
  lemma ChecklistMarks(c: Caller)
    ensures Checklist(c, Item) ==
      Item(0, Q1, "Q1" in c.answered) + Item(1, Q2, "Q2" in c.answered)
        + Item(2, Q3, "Q3" in c.answered) + Item(3, Q4, "Q4" in c.answered)
  {
    ChecklistSpec(c, Item);
  }
}
