/**
 * The prompt-injection server: after a completed call it fetches the most
 * recent chat group's events, stores the transcript on the caller's record
 * and marks the questions whose keywords the caller said; for a returning
 * caller it builds a conversation summary from the record to inject into a
 * per-call prompt.
 */
module PromptInjection {
  import opened Text
  import opened Discovery
  import opened CallerStore
  import opened ChatEvents

  /** `getOrCreateCaller`: the record starts with `chat_group_id` and `temp_config_id` null. */
  method GetOrCreateCaller(store: Store, phone: string, now: string) returns (c: Caller)
    modifies store
    ensures store.callers == GetOrCreateIn(old(store.callers), phone, NewCaller(phone, now, false))
    ensures c == store.callers[phone]
    ensures store.lastUpdate == old(store.lastUpdate)
  {
    c := store.GetOrCreate(phone, NewCaller(phone, now, false));
  }

  // ---------------------------------------------------------------------------
  // generateConversationSummary
  // ---------------------------------------------------------------------------

  /** `transcripts.slice(-2)`, each paired with its call number `|transcripts| - |window| + index + 1`. */
  function RecentWindow(ts: seq<TranscriptRecord>): seq<(nat, TranscriptRecord)> {
    var k := if |ts| < 2 then |ts| else 2;
    seq(k, j requires 0 <= j < k => (|ts| - k + j + 1, ts[|ts| - k + j]))
  }

  /** The window holds the last two transcripts (or fewer), numbered consecutively so that the last is numbered `|transcripts|`. */
  lemma RecentWindowSpec(ts: seq<TranscriptRecord>)
    ensures var w := RecentWindow(ts);
      && |w| == (if |ts| < 2 then |ts| else 2)
      && (forall j :: 0 <= j < |w| ==> w[j].1 == ts[|ts| - |w| + j])
      && (forall j :: 0 <= j && j + 1 < |w| ==> w[j + 1].0 == w[j].0 + 1)
      && (|ts| > 0 ==> w[|w| - 1].0 == |ts|)
  {
  }

  /** One call of the window: its number, its rendered date, and the user's words cut to 300 characters plus "...". */
  function CallBlock(entry: (nat, TranscriptRecord), dateOf: string -> string): string {
    "\nCall " + NatToString(entry.0) + " (" + dateOf(entry.1.date) + "):\n"
      + Ellipsize(UserText(entry.1.messages), 300) + "\n"
  }

  function CallBlocks(w: seq<(nat, TranscriptRecord)>, dateOf: string -> string): string {
    if |w| == 0 then "" else CallBlock(w[0], dateOf) + CallBlocks(w[1..], dateOf)
  }

  function Recent(c: Caller, dateOf: string -> string): string {
    if c.transcripts.Some? && |c.transcripts.value| > 0 then
      "RECENT CONVERSATIONS:\n" + CallBlocks(RecentWindow(c.transcripts.value), dateOf) + "\n"
    else ""
  }

  /** A topic line needs a known id and a truthy note. */
  const TopicStyle: LineStyle := LineStyle("- ", true, None)

  function Topics(c: Caller): string {
    if |c.answered| > 0 then "Topics discussed:\n" + ProgressText(TopicStyle, c, c.answered) + "\n" else ""
  }

  const AllCoveredText: string :=
    "All 4 core questions have been covered. " + "Have a natural conversation to explore deeper insights.\n"

  /** The closing instruction: the question at index `|questions_answered|`, or that all four are covered. */
  function Tail(c: Caller): string {
    if |c.answered| < |Tier1| then
      var q := Tier1[|c.answered|];
      "Continue with: " + q.short + "\n" + "Ask: \"" + q.full + "\"\n"
    else AllCoveredText
  }

  function Opening(c: Caller): string {
    "PREVIOUS CONVERSATION HISTORY:\n" + "This caller has called " + NatToString(c.callCount) + " time(s) before.\n\n"
  }

  /** `generateConversationSummary(caller)`; `None` is `null`, and `dateOf` renders a stored date. */
  function Summary(c: Caller, dateOf: string -> string): Option<string> {
    if c.callCount == 0 || |c.history| == 0 then None
    else Some(Opening(c) + (Recent(c, dateOf) + Topics(c)) + Tail(c))
  }

  /**
   * There is no summary for a caller without calls or history; otherwise it
   * opens with the call count and closes with the next question by count, or
   * with the all-covered text once four ids are answered.
   */
  lemma SummaryCases(c: Caller, dateOf: string -> string)
    ensures Summary(c, dateOf).None? <==> c.callCount == 0 || |c.history| == 0
    ensures Summary(c, dateOf).Some? ==>
      StartsWith(Summary(c, dateOf).value, Opening(c)) && EndsWith(Summary(c, dateOf).value, Tail(c))
    ensures |c.answered| < 4 ==>
      Tail(c) == "Continue with: " + Tier1[|c.answered|].short + "\n" + "Ask: \"" + Tier1[|c.answered|].full + "\"\n"
    ensures |c.answered| >= 4 ==> Tail(c) == AllCoveredText
  {
    if Summary(c, dateOf).Some? {
      AffixesOfConcat3(Opening(c), Recent(c, dateOf) + Topics(c), Tail(c));
    }
  }

  /** A call's user text over 300 characters is cut to exactly 300 plus "..."; shorter text is kept verbatim. */
  lemma CallBlockSnippet(entry: (nat, TranscriptRecord), dateOf: string -> string)
    ensures var u := UserText(entry.1.messages);
      var head := "\nCall " + NatToString(entry.0) + " (" + dateOf(entry.1.date) + "):\n";
      && (|u| > 300 ==> CallBlock(entry, dateOf) == head + u[..300] + "...\n")
      && (|u| <= 300 ==> CallBlock(entry, dateOf) == head + u + "\n")
  {
  }

  /** A topic line is written only for a known id with a truthy note. */
  lemma TopicLine(c: Caller, id: string)
    ensures ProgressLine(TopicStyle, c, id).Some? <==> id in Tier1Ids && Truthy(NoteOf(c, id))
    ensures ProgressLine(TopicStyle, c, id).Some? ==>
      ProgressLine(TopicStyle, c, id) == Some("- " + Find(id).value.short + ": " + c.notes[id] + "\n")
  {
  }

  // ---------------------------------------------------------------------------
  // /voice
  // ---------------------------------------------------------------------------

  /** The prompt of a returning caller's temporary configuration: `${basePrompt}\n\n${summary}`, where a null summary renders as "null". */
  function InjectedPrompt(basePrompt: string, c: Caller, dateOf: string -> string): string {
    basePrompt + "\n\n" + (if Summary(c, dateOf).Some? then Summary(c, dateOf).value else "null")
  }

  /**
   * A returning caller whose call count matches its history always has a
   * summary, so the injected prompt is the base prompt, a blank line and the
   * summary's opening.
   */
  lemma ReturningHasSummary(basePrompt: string, c: Caller, dateOf: string -> string)
    requires CountsAgree(c) && c.callCount > 0
    ensures Summary(c, dateOf).Some?
    ensures StartsWith(InjectedPrompt(basePrompt, c, dateOf), basePrompt + "\n\n" + Opening(c))
  {
    SummaryCases(c, dateOf);
    var v := Summary(c, dateOf).value;
    assert InjectedPrompt(basePrompt, c, dateOf) == (basePrompt + "\n\n") + v;
    StartsWithPrepend(basePrompt + "\n\n", v, Opening(c));
  }

  /**
   * `/voice`: fetches or creates the record; a returning caller gets a
   * temporary configuration built from the injected prompt. `created` is the
   * id of that configuration, `None` when creating it failed, in which case
   * the default configuration is used and nothing more is stored.
   */
  method Voice(store: Store, phone: string, now: string, basePrompt: string, dateOf: string -> string,
               defaultConfig: string, created: Option<string>)
    returns (configId: string, prompt: Option<string>)
    modifies store
    ensures var m := GetOrCreateIn(old(store.callers), phone, NewCaller(phone, now, false));
      && prompt == (if m[phone].callCount > 0 then Some(InjectedPrompt(basePrompt, m[phone], dateOf)) else None)
      && configId == (if m[phone].callCount > 0 && created.Some? then created.value else defaultConfig)
      && store.callers == (if m[phone].callCount > 0 && created.Some?
                           then m[phone := m[phone].(tempConfigId := created)] else m)
    ensures store.lastUpdate == old(store.lastUpdate)
  {
    var c := GetOrCreateCaller(store, phone, now);
    configId := defaultConfig;
    prompt := None;
    if c.callCount > 0 {
      prompt := Some(InjectedPrompt(basePrompt, c, dateOf));
      if created.Some? {
        configId := created.value;
        store.Put(phone, c.(tempConfigId := created));
      }
    }
  }

  // ---------------------------------------------------------------------------
  // fetchAndSaveTranscript
  // ---------------------------------------------------------------------------

  /**
   * Whether anything is written: a stored record, a most recent chat group
   * (`groupId`, `None` when the list is empty), and at least one message event.
   */
  predicate Saves(m: map<string, Caller>, phone: string, groupId: Option<string>, events: seq<ChatEvent>) {
    phone in m && groupId.Some? && |Transcript(events)| > 0
  }

  /** The transcript pushed (onto a new `transcripts` array if there was none), the call counted, the group stored and one history entry appended. */
  function RecordFetched(c: Caller, callSid: string, groupId: string, t: seq<Message>, now: string): Caller {
    var earlier := if c.transcripts.Some? then c.transcripts.value else [];
    c.(transcripts := Some(earlier + [TranscriptRecord(callSid, Some(groupId), now, t)]),
       callCount := c.callCount + 1,
       chatGroupId := Some(groupId),
       history := c.history + [TranscribedCall(callSid, Some(groupId), now, |t|)])
  }

  /** `temp_config_id` is cleared only when it was set and deleting that configuration succeeded. */
  function Cleanup(c: Caller, configDeleted: bool): Caller {
    if Truthy(c.tempConfigId) && configDeleted then c.(tempConfigId := None) else c
  }

  /** The caller map after `fetchAndSaveTranscript`. */
  function AfterFetch(m: map<string, Caller>, phone: string, callSid: string, groupId: Option<string>,
                      events: seq<ChatEvent>, now: string, configDeleted: bool): map<string, Caller>
  {
    if Saves(m, phone, groupId, events) then
      var t := Transcript(events);
      m[phone := Cleanup(MarkByKeywords(RecordFetched(m[phone], callSid, groupId.value, t, now), t), configDeleted)]
    else m
  }

  /**
   * Nothing changes without a record, a chat group or a message event.
   * Otherwise `transcripts`, `call_history` and `call_count` each grow by one,
   * earlier answers stay in place without duplicates, a question is marked
   * exactly when it was answered before or one of its keywords was said, and
   * no other record changes.
   */
  lemma FetchSpec(m: map<string, Caller>, phone: string, callSid: string, groupId: Option<string>,
                  events: seq<ChatEvent>, now: string, configDeleted: bool)
    ensures phone !in m || groupId.None? || (forall e :: e in events ==> !IsMessage(e)) ==>
      AfterFetch(m, phone, callSid, groupId, events, now, configDeleted) == m
    ensures var r := AfterFetch(m, phone, callSid, groupId, events, now, configDeleted);
      && r.Keys == m.Keys
      && (forall p :: p in m && p != phone ==> r[p] == m[p])
      && (AllCountsAgree(m) ==> AllCountsAgree(r))
      && (AllDistinct(m) ==> AllDistinct(r))
      && (Saves(m, phone, groupId, events) ==>
            && r[phone].callCount == m[phone].callCount + 1
            && |r[phone].history| == |m[phone].history| + 1
            && r[phone].transcripts.Some?
            && |r[phone].transcripts.value| == (if m[phone].transcripts.Some? then |m[phone].transcripts.value| else 0) + 1
            && r[phone].chatGroupId == groupId
            && (TranscriptsAgree(m[phone]) && m[phone].transcripts.Some? ==> TranscriptsAgree(r[phone]))
            && IsPrefix(m[phone].answered, r[phone].answered)
            && (forall q :: q in Tier1 ==>
                  (q.id in r[phone].answered <==>
                     q.id in m[phone].answered || Mentioned(KeywordsFor(q.id), Lower(UserText(Transcript(events)))))))
  {
    TranscriptEmpty(events);
    if Saves(m, phone, groupId, events) {
      var t := Transcript(events);
      FetchedCaller(m[phone], callSid, groupId.value, t, now, configDeleted);
      ReplaceRecord(m, phone, Cleanup(MarkByKeywords(RecordFetched(m[phone], callSid, groupId.value, t, now), t), configDeleted));
    }
  }

  /** The record of a saved fetch: one more transcript, call and history entry, and the keyword rule on the caller's words. */
  lemma FetchedCaller(c: Caller, callSid: string, g: string, t: seq<Message>, now: string, configDeleted: bool)
    ensures var r := Cleanup(MarkByKeywords(RecordFetched(c, callSid, g, t, now), t), configDeleted);
      && r.callCount == c.callCount + 1
      && |r.history| == |c.history| + 1
      && r.transcripts.Some?
      && |r.transcripts.value| == (if c.transcripts.Some? then |c.transcripts.value| else 0) + 1
      && r.chatGroupId == Some(g)
      && (TranscriptsAgree(c) && c.transcripts.Some? ==> TranscriptsAgree(r))
      && (CountsAgree(c) ==> CountsAgree(r))
      && (NoDuplicates(c.answered) ==> NoDuplicates(r.answered))
      && IsPrefix(c.answered, r.answered)
      && (forall q :: q in Tier1 ==>
            (q.id in r.answered <==> q.id in c.answered || Mentioned(KeywordsFor(q.id), Lower(UserText(t)))))
  {
    var d := RecordFetched(c, callSid, g, t, now);
    MarkByKeywordsAppendOnly(d, t);
    MarkByKeywordsFromFrame(d, 0, Lower(UserText(t)), KeywordNote(t));
    forall q | q in Tier1
      ensures q.id in MarkByKeywords(d, t).answered <==> q.id in d.answered || Mentioned(KeywordsFor(q.id), Lower(UserText(t)))
    {
      MarkByKeywordsMembership(d, Lower(UserText(t)), KeywordNote(t), q);
    }
  }

  /**
   * `fetchAndSaveTranscript(callerPhone, callSid)`, with the most recent chat
   * group's id, its events, and whether deleting the temporary configuration
   * succeeded passed in.
   */
  method FetchAndSaveTranscript(store: Store, phone: string, callSid: string, groupId: Option<string>,
                                events: seq<ChatEvent>, now: string, configDeleted: bool)
    modifies store
    ensures store.callers == AfterFetch(old(store.callers), phone, callSid, groupId, events, now, configDeleted)
    ensures store.lastUpdate == old(store.lastUpdate)
  {
    if phone !in store.callers || groupId.None? {
      return;
    }
    var transcript := ExtractTranscript(events);
    if |transcript| == 0 {
      return;
    }
    var c := store.callers[phone];
    var earlier := if c.transcripts.Some? then c.transcripts.value else [];
    c := c.(transcripts := Some(earlier + [TranscriptRecord(callSid, groupId, now, transcript)]));
    c := c.(callCount := c.callCount + 1, chatGroupId := groupId,
            history := c.history + [TranscribedCall(callSid, groupId, now, |transcript|)]);
    c := ApplyKeywordRule(c, transcript);
    if Truthy(c.tempConfigId) && configDeleted {
      c := c.(tempConfigId := None);
    }
    store.Put(phone, c);
  }

  /**
   * `/status`: a completed call triggers the transcript fetch (after a delay
   * the model does not represent); the answer is always 200.
   */
  method CallStatus(store: Store, callSid: string, callStatus: string, from: string, groupId: Option<string>,
                    events: seq<ChatEvent>, now: string, configDeleted: bool)
    returns (status: int)
    modifies store
    ensures status == 200
    ensures store.callers == if callStatus == "completed"
      then AfterFetch(old(store.callers), from, callSid, groupId, events, now, configDeleted)
      else old(store.callers)
    ensures store.lastUpdate == old(store.lastUpdate)
  {
    if callStatus == "completed" {
      FetchAndSaveTranscript(store, from, callSid, groupId, events, now, configDeleted);
    }
    status := 200;
  }

  /** `/fetch/:phone`: the fetch with the call id "manual". */
  method ManualFetch(store: Store, phone: string, groupId: Option<string>, events: seq<ChatEvent>,
                     now: string, configDeleted: bool)
    modifies store
    ensures store.callers == AfterFetch(old(store.callers), phone, "manual", groupId, events, now, configDeleted)
    ensures store.lastUpdate == old(store.lastUpdate)
  {
    FetchAndSaveTranscript(store, phone, "manual", groupId, events, now, configDeleted);
  }
}
