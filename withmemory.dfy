/**
 * The first discovery server with memory: a call is recorded when Twilio
 * reports it completed and longer than 10 seconds, a call longer than 60
 * seconds marks the next question, and the conversation context tells the
 * assistant which question to ask.
 */
module WithMemory {
  import opened Text
  import opened Discovery
  import opened CallerStore

  /** `getOrCreateCaller`: the record starts with `last_call_date: null` and no transcripts. */
  method GetOrCreateCaller(store: Store, phone: string, now: string) returns (c: Caller)
    modifies store
    ensures store.callers == GetOrCreateIn(old(store.callers), phone, NewCaller(phone, now, false))
    ensures c == store.callers[phone]
    ensures store.lastUpdate == old(store.lastUpdate)
  {
    c := store.GetOrCreate(phone, NewCaller(phone, now, false));
  }

  // ---------------------------------------------------------------------------
  // /call-status
  // ---------------------------------------------------------------------------

  /** The three conditions under which a status event records the call. */
  predicate Accepts(m: map<string, Caller>, callStatus: string, from: string, duration: string) {
    callStatus == "completed" && ParsedAbove(duration, 10) && from in m
  }

  function DurationNote(duration: string, now: string): string {
    "Discussed during " + duration + "s call on " + now
  }

  /** The caller map after `/call-status`. */
  function AfterCallStatus(m: map<string, Caller>, callSid: string, callStatus: string, from: string,
                           duration: string, now: string): map<string, Caller>
  {
    if Accepts(m, callStatus, from, duration) then
      m[from := CompleteCall(m[from], TimedCall(callSid, now, RawDuration(duration)), Some(now),
                             ParseIntOrZero(duration), DurationNote(duration, now))]
    else m
  }

  /**
   * The store changes exactly when the call is accepted; then only the
   * caller's record changes, gaining one call and one history entry, and
   * `call_count == |call_history|` and the Q1..Q4 order of the duration path
   * are kept.
   */
  lemma CallStatusSpec(m: map<string, Caller>, callSid: string, callStatus: string, from: string,
                       duration: string, now: string)
    ensures var r := AfterCallStatus(m, callSid, callStatus, from, duration, now);
      && (r == m <==> !Accepts(m, callStatus, from, duration))
      && r.Keys == m.Keys
      && (forall p :: p in m && p != from ==> r[p] == m[p])
      && (AllCountsAgree(m) ==> AllCountsAgree(r))
      && (Accepts(m, callStatus, from, duration) ==>
            && r[from].callCount == m[from].callCount + 1
            && |r[from].history| == |m[from].history| + 1
            && r[from].lastCall == Some(now)
            && (OnDurationPath(m[from]) ==> OnDurationPath(r[from])))
  {
    if Accepts(m, callStatus, from, duration) {
      var c := m[from];
      var entry := TimedCall(callSid, now, RawDuration(duration));
      CompleteCallSpec(c, entry, Some(now), ParseIntOrZero(duration), DurationNote(duration, now));
      var r := AfterCallStatus(m, callSid, callStatus, from, duration, now);
      assert r[from] != c;
    }
  }

  /** A 90-second call marks the question at index `|questions_answered|`, with a note naming the raw duration. */
  lemma LongCallMarksNext(m: map<string, Caller>, callSid: string, from: string, now: string)
    requires from in m && |m[from].answered| < 4
    ensures var r := AfterCallStatus(m, callSid, "completed", from, "90", now);
      && r[from].answered == m[from].answered + [Tier1Ids[|m[from].answered|]]
      && NoteOf(r[from], Tier1Ids[|m[from].answered|]) == Some("Discussed during " + "90" + "s call on " + now)
  {
    var c := m[from];
    ParseIntOfNatToString(90);
    assert NatToString(90) == "90";
    assert ParseIntOrZero("90") == 90 && Accepts(m, "completed", from, "90");
    var d := RecordCall(c, TimedCall(callSid, now, RawDuration("90")), Some(now));
    var note := DurationNote("90", now);
    assert AfterCallStatus(m, callSid, "completed", from, "90", now)[from] == MarkNextByDuration(d, 90, note);
    Tier1IdsAgree();
    assert Tier1[|c.answered|].id == Tier1Ids[|c.answered|];
  }

  /** `/call-status`: always answers 200. */
  method CallStatus(store: Store, callSid: string, callStatus: string, from: string, duration: string, now: string)
    returns (status: int)
    modifies store
    ensures status == 200
    ensures store.callers == AfterCallStatus(old(store.callers), callSid, callStatus, from, duration, now)
    ensures store.lastUpdate == old(store.lastUpdate)
  {
    if callStatus == "completed" && ParsedAbove(duration, 10) {
      if from in store.callers {
        var c := store.callers[from];
        c := c.(callCount := c.callCount + 1, lastCall := Some(now),
                history := c.history + [TimedCall(callSid, now, RawDuration(duration))]);
        if ParsedAbove(duration, 60) && |c.answered| < |Tier1| {
          var q := Tier1[|c.answered|];
          c := c.(answered := c.answered + [q.id], notes := c.notes[q.id := DurationNote(duration, now)]);
        }
        store.Put(from, c);
      }
    }
    status := 200;
  }

  // ---------------------------------------------------------------------------
  // /mark-answered and /reset
  // ---------------------------------------------------------------------------

  /** `/mark-answered`: 400 without a phone or a question id, 404 for an unknown caller, else 200. */
  method MarkAnswered(store: Store, phone: Option<string>, questionId: Option<string>, notes: Option<string>)
    returns (status: int)
    modifies store
    ensures status == 400 <==> !Truthy(phone) || !Truthy(questionId)
    ensures status == 404 <==> Truthy(phone) && Truthy(questionId) && phone.value !in old(store.callers)
    ensures status == 400 || status == 404 || status == 200
    ensures store.callers == if status == 200
      then MarkIn(old(store.callers), phone.value, questionId.value, OrElse(notes, "Manually marked as answered")).value
      else old(store.callers)
    ensures store.lastUpdate == old(store.lastUpdate)
  {
    if !Truthy(phone) || !Truthy(questionId) {
      return 400;
    }
    var found := store.Mark(phone.value, questionId.value, OrElse(notes, "Manually marked as answered"));
    status := if found then 200 else 404;
  }

  /** `/reset/:phone`: deletes the record, or 404. */
  method Reset(store: Store, phone: string) returns (status: int)
    modifies store
    ensures status == (if phone in old(store.callers) then 200 else 404)
    ensures store.callers == if status == 200 then ResetIn(old(store.callers), phone).value else old(store.callers)
    ensures store.lastUpdate == old(store.lastUpdate)
  {
    var found := store.Reset(phone);
    status := if found then 200 else 404;
  }

  // ---------------------------------------------------------------------------
  // generateConversationContext
  // ---------------------------------------------------------------------------

  const NewCallerText: string :=
    "This is a new caller. " + "Start with a warm introduction and begin with Question 1 (Critical Vulnerabilities)."
  const CompleteText: string :=
    "This caller has " + "completed all Tier 1 questions. Thank them for their time and insights. Optionally review key learnings or discuss next steps."

  /** Progress lines need a known id and a truthy note. */
  const Style: LineStyle := LineStyle("✓ ", true, None)

  function NextBlock(q: Question): string {
    "\nNEXT QUESTION TO ASK:\n" + q.id + " - " + q.short + "\n" + "\"" + q.full + "\"\n"
  }

  function Header(c: Caller): string {
    "RETURNING CALLER - Call #" + NatToString(c.callCount + 1) + "\n\n"
  }

  /** `generateConversationContext(caller)`. */
  function Context(c: Caller): string {
    if c.callCount == 0 then NewCallerText
    else if |c.answered| >= |Tier1| then CompleteText
    else Header(c) + "PREVIOUS PROGRESS:\n" + ProgressText(Style, c, c.answered) + NextBlock(Tier1[|c.answered|])
  }

  /**
   * A caller gets the new-caller text exactly when `call_count` is 0, the
   * completion text once four ids are answered, and otherwise the call number
   * `call_count + 1` and the question at index `|questions_answered|`.
   */
  lemma ContextCases(c: Caller)
    ensures Context(c) == NewCallerText <==> c.callCount == 0
    ensures c.callCount > 0 && |c.answered| >= 4 ==> Context(c) == CompleteText
    ensures c.callCount > 0 && |c.answered| < 4 ==>
      && StartsWith(Context(c), "RETURNING CALLER - Call #" + NatToString(c.callCount + 1) + "\n")
      && EndsWith(Context(c), NextBlock(Tier1[|c.answered|]))
  {
    if c.callCount > 0 {
      if |c.answered| >= 4 {
        assert CompleteText[5] == 'c';
      } else {
        ContextReturning(c);
      }
    }
  }

  lemma ContextReturning(c: Caller)
    requires c.callCount > 0 && |c.answered| < 4
    ensures StartsWith(Context(c), "RETURNING CALLER - Call #" + NatToString(c.callCount + 1) + "\n")
    ensures EndsWith(Context(c), NextBlock(Tier1[|c.answered|]))
    ensures Context(c)[0] == 'R'
  {
    var h := "RETURNING CALLER - Call #" + NatToString(c.callCount + 1) + "\n";
    var mid := "\n" + "PREVIOUS PROGRESS:\n" + ProgressText(Style, c, c.answered);
    var tail := NextBlock(Tier1[|c.answered|]);
    assert Context(c) == h + (mid + tail);
    assert Context(c) == (h + mid) + tail;
    AffixesOfConcat(h, mid + tail);
    AffixesOfConcat(h + mid, tail);
  }

  /** Unknown ids and ids without a note add no line; a known id with a note adds its short label and the note. */
  lemma ContextProgressLine(c: Caller, id: string)
    ensures ProgressLine(Style, c, id).Some? <==> id in Tier1Ids && Truthy(NoteOf(c, id))
    ensures ProgressLine(Style, c, id).Some? ==>
      ProgressLine(Style, c, id) == Some("✓ " + Find(id).value.short + ": " + c.notes[id] + "\n")
  {
  }

  /** The question offered is chosen by count: a caller who has only Q2 is asked Q2 again. */
  lemma ContextAsksByCount(c: Caller)
    requires c.callCount > 0 && c.answered == ["Q2"]
    ensures EndsWith(Context(c), NextBlock(Q2))
  {
    ContextCases(c);
  }
}
