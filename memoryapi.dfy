/**
 * The API-based memory server: after a completed call it fetches the most
 * recent chat group's events, counts the call, appends it to the caller's
 * history and marks the questions whose keywords the caller said. It keeps
 * no transcripts and no temporary configuration.
 */
module MemoryApi {
  import opened Text
  import opened Discovery
  import opened CallerStore
  import opened ChatEvents

  /** `getOrCreateCaller`: the record starts with `chat_group_id` null. */
  method GetOrCreateCaller(store: Store, phone: string, now: string) returns (c: Caller)
    modifies store
    ensures store.callers == GetOrCreateIn(old(store.callers), phone, NewCaller(phone, now, false))
    ensures c == store.callers[phone]
    ensures store.lastUpdate == old(store.lastUpdate)
  {
    c := store.GetOrCreate(phone, NewCaller(phone, now, false));
  }

  /** Whether anything is written: a stored record, a most recent chat group, and at least one message event. */
  predicate Saves(m: map<string, Caller>, phone: string, groupId: Option<string>, events: seq<ChatEvent>) {
    phone in m && groupId.Some? && |Transcript(events)| > 0
  }

  /** The call counted, the group stored and one history entry appended; `transcripts` is left alone. */
  function RecordFetched(c: Caller, callSid: string, groupId: string, t: seq<Message>, now: string): Caller {
    c.(callCount := c.callCount + 1,
       chatGroupId := Some(groupId),
       history := c.history + [TranscribedCall(callSid, Some(groupId), now, |t|)])
  }

  /** The caller map after `fetchAndSaveTranscript`. */
  function AfterFetch(m: map<string, Caller>, phone: string, callSid: string, groupId: Option<string>,
                      events: seq<ChatEvent>, now: string): map<string, Caller>
  {
    if Saves(m, phone, groupId, events) then
      var t := Transcript(events);
      m[phone := MarkByKeywords(RecordFetched(m[phone], callSid, groupId.value, t, now), t)]
    else m
  }

  /**
   * Nothing changes without a record, a chat group or a message event.
   * Otherwise `call_history` and `call_count` grow by one, the history entry
   * carries the number of messages, earlier answers stay in place, a question
   * is marked exactly when it was answered before or one of its keywords was
   * said, and no other record changes.
   */
  lemma FetchSpec(m: map<string, Caller>, phone: string, callSid: string, groupId: Option<string>,
                  events: seq<ChatEvent>, now: string)
    ensures phone !in m || groupId.None? || (forall e :: e in events ==> !IsMessage(e)) ==>
      AfterFetch(m, phone, callSid, groupId, events, now) == m
    ensures var r := AfterFetch(m, phone, callSid, groupId, events, now);
      && r.Keys == m.Keys
      && (forall p :: p in m && p != phone ==> r[p] == m[p])
      && (AllCountsAgree(m) ==> AllCountsAgree(r))
      && (AllDistinct(m) ==> AllDistinct(r))
      && (Saves(m, phone, groupId, events) ==>
            && r[phone].callCount == m[phone].callCount + 1
            && r[phone].history == m[phone].history
                 + [TranscribedCall(callSid, groupId, now, |Transcript(events)|)]
            && r[phone].transcripts == m[phone].transcripts
            && r[phone].chatGroupId == groupId
            && IsPrefix(m[phone].answered, r[phone].answered)
            && (forall q :: q in Tier1 ==>
                  (q.id in r[phone].answered <==>
                     q.id in m[phone].answered || Mentioned(KeywordsFor(q.id), Lower(UserText(Transcript(events)))))))
  {
    TranscriptEmpty(events);
    if Saves(m, phone, groupId, events) {
      var t := Transcript(events);
      FetchedCaller(m[phone], callSid, groupId.value, t, now);
      ReplaceRecord(m, phone, MarkByKeywords(RecordFetched(m[phone], callSid, groupId.value, t, now), t));
    }
  }

  /** The record of a saved fetch: one more call and history entry, and the keyword rule on the caller's words. */
  lemma FetchedCaller(c: Caller, callSid: string, g: string, t: seq<Message>, now: string)
    ensures var r := MarkByKeywords(RecordFetched(c, callSid, g, t, now), t);
      && r.callCount == c.callCount + 1
      && r.history == c.history + [TranscribedCall(callSid, Some(g), now, |t|)]
      && r.transcripts == c.transcripts
      && r.chatGroupId == Some(g)
      && (CountsAgree(c) ==> CountsAgree(r))
      && (NoDuplicates(c.answered) ==> NoDuplicates(r.answered))
      && IsPrefix(c.answered, r.answered)
      && (forall q :: q in Tier1 ==>
            (q.id in r.answered <==> q.id in c.answered || Mentioned(KeywordsFor(q.id), Lower(UserText(t)))))
  {
    var d := RecordFetched(c, callSid, g, t, now);
    MarkByKeywordsAppendOnly(d, t);
    MarkByKeywordsFromFrame(d, 0, Lower(UserText(t)), KeywordNote(t));
    forall q | q in Tier1
      ensures q.id in MarkByKeywords(d, t).answered <==> q.id in d.answered || Mentioned(KeywordsFor(q.id), Lower(UserText(t)))
    {
      MarkByKeywordsMembership(d, Lower(UserText(t)), KeywordNote(t), q);
    }
  }

  /** `fetchAndSaveTranscript(callerPhone, callSid)`, with the most recent chat group's id and its events passed in. */
  method FetchAndSaveTranscript(store: Store, phone: string, callSid: string, groupId: Option<string>,
                                events: seq<ChatEvent>, now: string)
    modifies store
    ensures store.callers == AfterFetch(old(store.callers), phone, callSid, groupId, events, now)
    ensures store.lastUpdate == old(store.lastUpdate)
  {
    if phone !in store.callers || groupId.None? {
      return;
    }
    var transcript := ExtractTranscript(events);
    if |transcript| == 0 {
      return;
    }
    var c := store.callers[phone];
    c := c.(callCount := c.callCount + 1, chatGroupId := groupId,
            history := c.history + [TranscribedCall(callSid, groupId, now, |transcript|)]);
    c := ApplyKeywordRule(c, transcript);
    store.Put(phone, c);
  }

  /** `/status`: a completed call triggers the transcript fetch; the answer is always 200. */
  method CallStatus(store: Store, callSid: string, callStatus: string, from: string, groupId: Option<string>,
                    events: seq<ChatEvent>, now: string)
    returns (status: int)
    modifies store
    ensures status == 200
    ensures store.callers == if callStatus == "completed"
      then AfterFetch(old(store.callers), from, callSid, groupId, events, now)
      else old(store.callers)
    ensures store.lastUpdate == old(store.lastUpdate)
  {
    if callStatus == "completed" {
      FetchAndSaveTranscript(store, from, callSid, groupId, events, now);
    }
    status := 200;
  }

  /** `/fetch/:phone`: the fetch with the call id "manual". */
  method ManualFetch(store: Store, phone: string, groupId: Option<string>, events: seq<ChatEvent>, now: string)
    modifies store
    ensures store.callers == AfterFetch(old(store.callers), phone, "manual", groupId, events, now)
    ensures store.lastUpdate == old(store.lastUpdate)
  {
    FetchAndSaveTranscript(store, phone, "manual", groupId, events, now);
  }
}
