/**
 * The final discovery server. Every `writeMemory` stamps `lastUpdate`; a
 * completed call longer than 30 seconds is recorded even for a phone with no
 * record yet (the record is created first); and after every change the
 * prompt is rebuilt through `updateHumePromptForCaller`, which itself calls
 * `getOrCreateCaller`, so a reset caller comes back as a fresh record.
 */
module MemoryFinal {
  import opened Text
  import opened Discovery
  import opened CallerStore

  /**
   * `getOrCreateCaller`: the record starts with `last_call: null`; creating
   * one writes the memory and so stamps `lastUpdate`.
   */
  method GetOrCreateCaller(store: Store, phone: string, now: string) returns (c: Caller)
    modifies store
    ensures store.callers == GetOrCreateIn(old(store.callers), phone, NewCaller(phone, now, false))
    ensures c == store.callers[phone]
    ensures store.lastUpdate == if phone in old(store.callers) then old(store.lastUpdate) else Some(now)
  {
    var known := phone in store.callers;
    c := store.GetOrCreate(phone, NewCaller(phone, now, false));
    if !known {
      store.Stamp(now);
    }
  }

  // ---------------------------------------------------------------------------
  // /call-status
  // ---------------------------------------------------------------------------

  /** `parseInt(Duration) || 0`. */
  function Seconds(duration: string): int {
    ParseIntOrZero(duration)
  }

  /** A status event is recorded when the call completed and lasted more than 30 seconds; the caller need not exist. */
  predicate Records(callStatus: string, duration: string) {
    callStatus == "completed" && Seconds(duration) > 30
  }

  function DurationNote(seconds: int): string {
    "Discussed in " + IntToString(seconds) + "s call"
  }

  /** `memory.callers[From] || getOrCreateCaller(From)`. */
  function StoredOrNew(m: map<string, Caller>, phone: string, now: string): Caller {
    if phone in m then m[phone] else NewCaller(phone, now, false)
  }

  /** The caller map after `/call-status`. */
  function AfterCallStatus(m: map<string, Caller>, callSid: string, callStatus: string, from: string,
                           duration: string, now: string): map<string, Caller>
  {
    if Records(callStatus, duration) then
      var d := Seconds(duration);
      m[from := CompleteCall(StoredOrNew(m, from, now), TimedCall(callSid, now, Duration.Seconds(d)), Some(now),
                             d, DurationNote(d))]
    else m
  }

  /**
   * A recorded call leaves a record under `From`, created if needed, with one
   * more call, one more history entry and `last_call` set; every other record
   * is untouched and `call_count == |call_history|` is kept.
   */
  lemma CallStatusSpec(m: map<string, Caller>, callSid: string, callStatus: string, from: string,
                       duration: string, now: string)
    ensures var r := AfterCallStatus(m, callSid, callStatus, from, duration, now);
      && (!Records(callStatus, duration) ==> r == m)
      && (Records(callStatus, duration) ==>
            && r.Keys == m.Keys + {from}
            && r[from].callCount == (if from in m then m[from].callCount else 0) + 1
            && |r[from].history| == (if from in m then |m[from].history| else 0) + 1
            && r[from].lastCall == Some(now)
            && (from in m && OnDurationPath(m[from]) ==> OnDurationPath(r[from]))
            && (var c := StoredOrNew(m, from, now);
                && (Seconds(duration) > 60 && |c.answered| < 4 ==>
                      && r[from].answered == c.answered + [Tier1Ids[|c.answered|]]
                      && NoteOf(r[from], Tier1Ids[|c.answered|]) == Some(DurationNote(Seconds(duration))))
                && (!(Seconds(duration) > 60 && |c.answered| < 4) ==> r[from].answered == c.answered)))
      && (forall p :: p in m && p != from ==> r[p] == m[p])
      && (AllCountsAgree(m) ==> AllCountsAgree(r))
  {
    if Records(callStatus, duration) {
      var d := Seconds(duration);
      var c := StoredOrNew(m, from, now);
      var entry := TimedCall(callSid, now, Duration.Seconds(d));
      CompleteCallSpec(c, entry, Some(now), d, DurationNote(d));
      DurationAppendOnly(RecordCall(c, entry, Some(now)), d, DurationNote(d));
      if d > 60 && |c.answered| < 4 {
        DurationMarksByCount(RecordCall(c, entry, Some(now)), d, DurationNote(d));
      }
    }
  }

  /** A first long call from an unknown phone creates the record and already marks Q1. */
  lemma FirstLongCallCreatesAndMarks(m: map<string, Caller>, callSid: string, from: string, now: string)
    requires from !in m
    ensures var r := AfterCallStatus(m, callSid, "completed", from, "90", now);
      && from in r && r[from].callCount == 1 && r[from].answered == ["Q1"]
      && NoteOf(r[from], "Q1") == Some("Discussed in 90s call")
  {
    ParseIntOfNatToString(90);
    assert NatToString(90) == "90";
    assert Seconds("90") == 90;
    assert DurationNote(90) == "Discussed in 90s call";
  }

  /**
   * `/call-status`: always answers 200. A recorded call stores the updated
   * record and stamps `lastUpdate`; rebuilding the prompt afterwards finds the
   * record and writes nothing more.
   */
  method CallStatus(store: Store, callSid: string, callStatus: string, from: string, duration: string, now: string)
    returns (status: int)
    modifies store
    ensures status == 200
    ensures store.callers == AfterCallStatus(old(store.callers), callSid, callStatus, from, duration, now)
    ensures store.lastUpdate == if Records(callStatus, duration) then Some(now) else old(store.lastUpdate)
  {
    if callStatus == "completed" {
      var d := Seconds(duration);
      if d > 30 {
        ghost var m := store.callers;
        var c: Caller;
        if from in store.callers {
          c := store.callers[from];
        } else {
          c := GetOrCreateCaller(store, from, now);
        }
        ghost var stored := StoredOrNew(m, from, now);
        ghost var entry := TimedCall(callSid, now, Duration.Seconds(d));
        assert c == stored && store.callers[from := stored] == m[from := stored];
        c := c.(callCount := c.callCount + 1, lastCall := Some(now),
                history := c.history + [TimedCall(callSid, now, Duration.Seconds(d))]);
        assert c == RecordCall(stored, entry, Some(now));
        if d > 60 && |c.answered| < |Tier1| {
          var q := Tier1[|c.answered|];
          c := c.(answered := c.answered + [q.id], notes := c.notes[q.id := DurationNote(d)]);
        }
        assert c == CompleteCall(stored, entry, Some(now), d, DurationNote(d));
        store.Put(from, c);
        store.Stamp(now);
      }
    }
    status := 200;
  }

  // ---------------------------------------------------------------------------
  // /mark-answered and /reset
  // ---------------------------------------------------------------------------

  /**
   * `/mark-answered`: 400 without a phone or a question id, 404 for an
   * unknown caller, else 200; only a new id is written (and stamped).
   */
  method MarkAnswered(store: Store, phone: Option<string>, questionId: Option<string>, notes: Option<string>,
                      now: string)
    returns (status: int)
    modifies store
    ensures status == 400 <==> !Truthy(phone) || !Truthy(questionId)
    ensures status == 404 <==> Truthy(phone) && Truthy(questionId) && phone.value !in old(store.callers)
    ensures status == 400 || status == 404 || status == 200
    ensures store.callers == if status == 200
      then MarkIn(old(store.callers), phone.value, questionId.value, OrElse(notes, "Manually marked")).value
      else old(store.callers)
    ensures store.lastUpdate ==
      if status == 200 && questionId.value !in old(store.callers)[phone.value].answered then Some(now)
      else old(store.lastUpdate)
  {
    if !Truthy(phone) || !Truthy(questionId) {
      return 400;
    }
    if phone.value !in store.callers {
      return 404;
    }
    var isNew := questionId.value !in store.callers[phone.value].answered;
    var found := store.Mark(phone.value, questionId.value, OrElse(notes, "Manually marked"));
    if isNew {
      store.Stamp(now);
    }
    status := 200;
  }

  /** The caller map after a successful `/reset/:phone`: the record is deleted, then recreated fresh by the prompt rebuild. */
  function ResetFresh(m: map<string, Caller>, phone: string, now: string): map<string, Caller>
    requires phone in m
  {
    (m - {phone})[phone := NewCaller(phone, now, false)]
  }

  /** Reset leaves the phone known but with a fresh record, and every other record untouched. */
  lemma ResetFreshSpec(m: map<string, Caller>, phone: string, now: string)
    requires phone in m
    ensures var r := ResetFresh(m, phone, now);
      && r.Keys == m.Keys
      && r[phone] == NewCaller(phone, now, false)
      && r[phone].callCount == 0 && r[phone].answered == [] && r[phone].history == []
      && (forall p :: p in m && p != phone ==> r[p] == m[p])
      && (AllCountsAgree(m) ==> AllCountsAgree(r))
  {
  }

  /** `/reset/:phone`: 404 for an unknown phone; otherwise delete, write, and rebuild the prompt. */
  method Reset(store: Store, phone: string, now: string) returns (status: int)
    modifies store
    ensures status == (if phone in old(store.callers) then 200 else 404)
    ensures store.callers == if status == 200 then ResetFresh(old(store.callers), phone, now) else old(store.callers)
    ensures store.lastUpdate == if status == 200 then Some(now) else old(store.lastUpdate)
  {
    var found := store.Reset(phone);
    if !found {
      return 404;
    }
    store.Stamp(now);
    var c := GetOrCreateCaller(store, phone, now);
    status := 200;
  }

  // ---------------------------------------------------------------------------
  // The memory section of the prompt (updateHumePromptForCaller)
  // ---------------------------------------------------------------------------

  const Banner: string := "\n\n=== CONVERSATION MEMORY ===\n"
  const NewCallerText: string := "NEW CALLER\n" + "Welcome them warmly and begin with the first discovery question.\n"
  const CompleteText: string :=
    "ALL 4 DISCOVERY QUESTIONS COMPLETE!\n" + "Thank them sincerely for sharing their critical business knowledge.\n"
      + "This conversation series has been very valuable.\n"
  const ChecklistHeader: string := "\n=== TIER 1: BUSINESS SURVIVAL DISCOVERY QUESTIONS ===\n"

  /** Every answered id gets a line: unknown ids print as themselves and a missing note as "Discussed". */
  const Style: LineStyle := LineStyle("✓ ", false, Some("Discussed"))

  function Header(c: Caller): string {
    "RETURNING CALLER - This is call #" + NatToString(c.callCount + 1) + "\n\n"
  }

  function Covered(c: Caller): string {
    if |c.answered| > 0 then "QUESTIONS ALREADY COVERED:\n" + ProgressText(Style, c, c.answered) + "\n" else ""
  }

  function NextBlock(q: Question): string {
    "NEXT QUESTION TO ASK TODAY:\n" + q.id + " - " + q.short + "\n" + "\"" + q.full + "\"\n\n"
      + "Focus on this question but let the conversation flow naturally.\n"
  }

  /** What a returning caller is asked: the question at index `|questions_answered|`, or the completion text. */
  function Ask(c: Caller): string {
    if |c.answered| < |Tier1| then NextBlock(Tier1[|c.answered|]) else CompleteText
  }

  /** The part of the memory section that depends on the caller's progress. */
  function Status(c: Caller): string {
    if c.callCount == 0 then NewCallerText else Header(c) + Covered(c) + Ask(c)
  }

  /** One checklist entry: `[✓ DONE]` for an answered question, `[PENDING]` otherwise. */
  function Item(i: nat, q: Question, answered: bool): string {
    "\n[" + (if answered then "✓ DONE" else "PENDING") + "] Question " + NatToString(i + 1) + ": " + q.short + "\n"
      + "\"" + q.full + "\"\n"
  }

  lemma ItemFlag(i: nat, q: Question, b: bool)
    ensures Item(i, q, b)[2] == (if b then '✓' else 'P')
  {
    var flag := if b then "✓ DONE" else "PENDING";
    assert ("\n[" + flag)[2] == flag[0];
  }

  /** The text appended to the base prompt. */
  function Context(c: Caller): string {
    Banner + Status(c) + ChecklistHeader + Checklist(c, Item)
  }

  /**
   * `updateHumePromptForCaller(phone)`: fetches or creates the record and
   * returns the base prompt followed by its memory section.
   */
  method UpdatePrompt(store: Store, phone: string, now: string, basePrompt: string) returns (prompt: string)
    modifies store
    ensures store.callers == GetOrCreateIn(old(store.callers), phone, NewCaller(phone, now, false))
    ensures store.lastUpdate == if phone in old(store.callers) then old(store.lastUpdate) else Some(now)
    ensures prompt == basePrompt + Context(store.callers[phone])
  {
    var c := GetOrCreateCaller(store, phone, now);
    prompt := basePrompt + Context(c);
  }

  /**
   * A caller gets the new-caller text exactly when `call_count` is 0;
   * otherwise the call number `call_count + 1`, then the question at index
   * `|questions_answered|` or, with four answers, the completion text.
   */
  lemma StatusCases(c: Caller)
    ensures Status(c) == NewCallerText <==> c.callCount == 0
    ensures c.callCount > 0 ==> StartsWith(Status(c), Header(c)) && EndsWith(Status(c), Ask(c))
    ensures Ask(c) == if |c.answered| < 4 then NextBlock(Tier1[|c.answered|]) else CompleteText
  {
    if c.callCount > 0 {
      StatusReturning(c);
      assert NewCallerText[0] == 'N';
    }
  }

  lemma StatusReturning(c: Caller)
    requires c.callCount > 0
    ensures StartsWith(Status(c), Header(c)) && Status(c)[0] == 'R'
    ensures EndsWith(Status(c), Ask(c))
  {
    AffixesOfConcat3(Header(c), Covered(c), Ask(c));
  }

  /** Every answered id yields exactly one line, known or not, with "Discussed" for a missing or empty note. */
  lemma EveryAnswerListed(c: Caller, id: string)
    ensures ProgressLine(Style, c, id) ==
      Some("✓ " + (if id in Tier1Ids then Find(id).value.short else id) + ": " + OrElse(NoteOf(c, id), "Discussed") + "\n")
  {
  }

  /** The checklist tags each of the four questions, in definition order, "✓ DONE" exactly when its id is answered. */
  lemma ChecklistMarks(c: Caller)
    ensures Checklist(c, Item) ==
      Item(0, Q1, "Q1" in c.answered) + Item(1, Q2, "Q2" in c.answered)
        + Item(2, Q3, "Q3" in c.answered) + Item(3, Q4, "Q4" in c.answered)
  {
    ChecklistSpec(c, Item);
  }
}
