/**
 * The per-caller discovery memory shared by the voice-assistant servers: the
 * four Tier 1 questions, their keyword lists, the caller record stored under
 * each phone number, and the rules that move a caller through the questions
 * (a long completed call marks the next question by count; a transcript marks
 * every question one of whose keywords the caller said; an operator can mark a
 * question by hand). The renderers' shared piece, the list of already covered
 * questions, is defined here too.
 */
module Discovery {
  import opened Text

  // ---------------------------------------------------------------------------
  // The Tier 1 questions
  // ---------------------------------------------------------------------------

  datatype Question = Question(id: string, short: string, full: string)

  const Q1: Question := Question("Q1", "Critical Vulnerabilities",
    "What are the 3-5 things that, if they went wrong tomorrow, would put this business in serious danger - and how would you fix them?")
  const Q2: Question := Question("Q2", "Crisis Moments",
    "Walk me through your last three 'oh shit' moments - what went wrong, what did you do, and what would you do differently now?")
  const Q3: Question := Question("Q3", "Critical Relationships",
    "Which customers, suppliers, or relationships are absolutely critical to keep - and what's the unwritten agreement or history with each that I need to know?")
  const Q4: Question := Question("Q4", "Silent Killers",
    "What are the 'silent killers' - small things people ignore that snowball into big problems?")

  /** `TIER1_QUESTIONS`, in definition order. */
  const Tier1: seq<Question> := [Q1, Q2, Q3, Q4]
  const Tier1Ids: seq<string> := ["Q1", "Q2", "Q3", "Q4"]

  lemma Tier1IdsAgree()
    ensures |Tier1| == |Tier1Ids| == 4
    ensures forall i :: 0 <= i < 4 ==> Tier1[i].id == Tier1Ids[i]
    ensures NoDuplicates(Tier1Ids)
  {
  }

  /** `TIER1_QUESTIONS.find(q => q.id === id)`. */
  function Find(id: string): (r: Option<Question>)
    ensures r.Some? <==> id in Tier1Ids
    ensures r.Some? ==> r.value.id == id && r.value in Tier1
  {
    if id == "Q1" then Some(Q1)
    else if id == "Q2" then Some(Q2)
    else if id == "Q3" then Some(Q3)
    else if id == "Q4" then Some(Q4)
    else None
  }

  /** `keywords[q.id] || []`: the words whose mention marks a question. */
  function KeywordsFor(id: string): (r: seq<string>)
    ensures id !in Tier1Ids ==> r == []
    ensures forall kw :: kw in r ==> |kw| > 0
  {
    if id == "Q1" then ["danger", "wrong", "serious", "risk", "fail"]
    else if id == "Q2" then ["oh shit", "crisis", "went wrong", "problem"]
    else if id == "Q3" then ["customer", "supplier", "relationship", "critical"]
    else if id == "Q4" then ["silent", "ignore", "small", "snowball"]
    else []
  }

  // ---------------------------------------------------------------------------
  // The caller record
  // ---------------------------------------------------------------------------

  /** One turn of a conversation transcript. */
  datatype Message = Message(role: string, text: string, timestamp: Option<string>)

  /** The `duration` stored in a history entry: the raw form field, or the parsed number. */
  datatype Duration = RawDuration(text: string) | Seconds(value: int)

  /** One `call_history` entry. */
  datatype CallEntry =
    | TimedCall(callSid: string, date: string, duration: Duration)
    | TranscribedCall(callSid: string, chatGroupId: Option<string>, date: string, messageCount: nat)

  /** One `transcripts` entry. */
  datatype TranscriptRecord = TranscriptRecord(callSid: string, chatGroupId: Option<string>, date: string, messages: seq<Message>)

  /**
   * The record stored under a phone number. Fields that only some servers
   * write are optional: `lastCall` (`last_call_date` / `last_call`),
   * `transcripts`, `chatGroupId` and `tempConfigId` are `None` when absent or
   * null.
   */
  datatype Caller = Caller(
    phone: string,
    callCount: nat,
    firstCall: string,
    lastCall: Option<string>,
    answered: seq<string>,
    notes: map<string, string>,
    history: seq<CallEntry>,
    transcripts: Option<seq<TranscriptRecord>>,
    chatGroupId: Option<string>,
    tempConfigId: Option<string>)

  /** `caller.conversation_notes[qId]`. */
  function NoteOf(c: Caller, id: string): Option<string> {
    if id in c.notes then Some(c.notes[id]) else None
  }

  /** A freshly created record; `withTranscripts` says whether the server starts it with `transcripts: []`. */
  function NewCaller(phone: string, now: string, withTranscripts: bool): (c: Caller)
    ensures c.callCount == 0 && c.answered == [] && c.notes == map[] && c.history == []
    ensures c.phone == phone && c.firstCall == now && c.lastCall.None?
    ensures c.transcripts == if withTranscripts then Some([]) else None
    ensures c.chatGroupId.None? && c.tempConfigId.None?
  {
    Caller(phone, 0, now, None, [], map[], [], if withTranscripts then Some([]) else None, None, None)
  }

  /** `call_count` counts the `call_history` entries. */
  predicate CountsAgree(c: Caller) {
    c.callCount == |c.history|
  }

  /** With `transcripts` present, every recorded call carries one transcript. */
  predicate TranscriptsAgree(c: Caller) {
    c.transcripts.Some? ==> |c.transcripts.value| == |c.history|
  }

  predicate IsPrefix<T(==)>(a: seq<T>, b: seq<T>) {
    |a| <= |b| && b[..|a|] == a
  }

  /** The answers a caller can reach through the duration rule alone: Q1, Q2, ... in order. */
  predicate OnDurationPath(c: Caller) {
    |c.answered| <= 4 && c.answered == Tier1Ids[..|c.answered|]
  }

  /** The question asked next: the one at index `|questions_answered|`, whichever ids are present. */
  function NextQuestion(c: Caller): (r: Option<Question>)
    ensures r.Some? <==> |c.answered| < 4
    ensures r.Some? ==> r.value == Tier1[|c.answered|]
  {
    if |c.answered| < |Tier1| then Some(Tier1[|c.answered|]) else None
  }

  // ---------------------------------------------------------------------------
  // Recording a call
  // ---------------------------------------------------------------------------

  /** `call_count += 1`, one history entry, and `last_call` when the server sets it. */
  function RecordCall(c: Caller, entry: CallEntry, lastCall: Option<string>): (r: Caller)
    ensures CountsAgree(c) ==> CountsAgree(r)
    ensures r.callCount == c.callCount + 1 && r.history == c.history + [entry]
    ensures r.answered == c.answered && r.notes == c.notes && r.transcripts == c.transcripts
    ensures r.lastCall == if lastCall.Some? then lastCall else c.lastCall
  {
    c.(callCount := c.callCount + 1, history := c.history + [entry],
       lastCall := if lastCall.Some? then lastCall else c.lastCall)
  }

  // ---------------------------------------------------------------------------
  // The duration rule
  // ---------------------------------------------------------------------------

  /** A call longer than 60 seconds marks the question at index `|questions_answered|`, while one remains. */
  function MarkNextByDuration(c: Caller, seconds: int, note: string): Caller
  {
    if seconds > 60 && |c.answered| < |Tier1| then
      var q := Tier1[|c.answered|];
      c.(answered := c.answered + [q.id], notes := c.notes[q.id := note])
    else c
  }

  /** The rule appends at most one id, never more than four in all, and touches nothing but answers and notes. */
  lemma DurationAppendOnly(c: Caller, seconds: int, note: string)
    ensures var r := MarkNextByDuration(c, seconds, note);
      && IsPrefix(c.answered, r.answered)
      && |r.answered| <= |c.answered| + 1
      && (|c.answered| <= 4 ==> |r.answered| <= 4)
      && (|r.answered| > |c.answered| <==> seconds > 60 && |c.answered| < 4)
      && r.callCount == c.callCount && r.history == c.history && r.transcripts == c.transcripts
  {
    var r := MarkNextByDuration(c, seconds, note);
    assert r.answered[..|c.answered|] == c.answered;
  }

  /** The id appended is the one at index `|questions_answered|`, and it gets the note. */
  lemma DurationMarksByCount(c: Caller, seconds: int, note: string)
    requires seconds > 60 && |c.answered| < 4
    ensures var r := MarkNextByDuration(c, seconds, note);
      r.answered == c.answered + [Tier1Ids[|c.answered|]] && NoteOf(r, Tier1Ids[|c.answered|]) == Some(note)
  {
    Tier1IdsAgree();
  }

  /** Through the duration rule alone, the answers stay Q1, Q2, ... in order and so never repeat. */
  lemma DurationKeepsPath(c: Caller, seconds: int, note: string)
    requires OnDurationPath(c)
    ensures OnDurationPath(MarkNextByDuration(c, seconds, note))
    ensures NoDuplicates(MarkNextByDuration(c, seconds, note).answered)
  {
    Tier1IdsAgree();
    var r := MarkNextByDuration(c, seconds, note);
    if seconds > 60 && |c.answered| < 4 {
      assert Tier1Ids[..|c.answered| + 1] == Tier1Ids[..|c.answered|] + [Tier1Ids[|c.answered|]];
    }
    assert r.answered == Tier1Ids[..|r.answered|];
  }

  /**
   * Mixing the rules breaks the order: a question marked by hand out of turn
   * is counted as the first one, so a long call marks it a second time.
   */
  lemma DurationAfterManualRepeats(phone: string, now: string)
    ensures var c := ManualMark(NewCaller(phone, now, false), "Q2", "Manually marked");
      MarkNextByDuration(c, 90, "Discussed in 90s call").answered == ["Q2", "Q2"]
  {
  }

  /** The Tier 1 index of the first question from `i` on whose id is not among `answered`. */
  function FirstUnanswered(answered: seq<string>, i: nat): (r: Option<nat>)
    requires i <= 4
    ensures r.Some? ==> i <= r.value < 4 && Tier1Ids[r.value] !in answered
    ensures r.Some? ==> forall j :: i <= j < r.value ==> Tier1Ids[j] in answered
    ensures r.None? ==> forall j :: i <= j < 4 ==> Tier1Ids[j] in answered
    decreases 4 - i
  {
    if i == 4 then None
    else if Tier1Ids[i] !in answered then Some(i)
    else FirstUnanswered(answered, i + 1)
  }

  /**
   * The duration rule as evidently intended: a long call marks the first
   * Tier 1 question not answered yet, so no id is ever marked twice.
   */
  function MarkFirstUnanswered(c: Caller, seconds: int, note: string): Caller
  {
    if seconds > 60 then
      match FirstUnanswered(c.answered, 0)
      case None => c
      case Some(k) => c.(answered := c.answered + [Tier1Ids[k]], notes := c.notes[Tier1Ids[k] := note])
    else c
  }

  /** The intended rule appends only an unanswered id, exactly when a long call leaves one, and keeps the answers free of repeats. */
  lemma FirstUnansweredSpec(c: Caller, seconds: int, note: string)
    ensures var r := MarkFirstUnanswered(c, seconds, note);
      && IsPrefix(c.answered, r.answered)
      && |r.answered| <= |c.answered| + 1
      && (|r.answered| > |c.answered| <==> seconds > 60 && exists id :: id in Tier1Ids && id !in c.answered)
      && (|r.answered| > |c.answered| ==> r.answered[|c.answered|] in Tier1Ids && r.answered[|c.answered|] !in c.answered)
      && (NoDuplicates(c.answered) ==> NoDuplicates(r.answered))
      && r.callCount == c.callCount && r.history == c.history && r.transcripts == c.transcripts
  {
    var r := MarkFirstUnanswered(c, seconds, note);
    assert r.answered[..|c.answered|] == c.answered;
    var f := FirstUnanswered(c.answered, 0);
    if seconds > 60 && f.None? {
      forall id | id in Tier1Ids ensures id in c.answered {
        var j :| 0 <= j < 4 && Tier1Ids[j] == id;
      }
    }
  }

  /** On the duration path the two rules agree: the next question by count is the first unanswered one. */
  lemma FirstUnansweredOnPath(c: Caller, seconds: int, note: string)
    requires OnDurationPath(c)
    ensures MarkFirstUnanswered(c, seconds, note) == MarkNextByDuration(c, seconds, note)
  {
    Tier1IdsAgree();
    var n := |c.answered|;
    forall j | 0 <= j < n ensures Tier1Ids[j] in c.answered {
      assert c.answered[j] == Tier1Ids[j];
    }
    if n < 4 {
      assert Tier1Ids[n] !in c.answered by {
        forall j | 0 <= j < n ensures c.answered[j] != Tier1Ids[n] {
          assert c.answered[j] == Tier1Ids[j];
        }
      }
      assert FirstUnanswered(c.answered, 0) == Some(n);
    } else {
      assert FirstUnanswered(c.answered, 0) == None;
    }
  }

  /** After the manual mark of Q2, the intended rule marks Q1 rather than Q2 again. */
  lemma FirstUnansweredAfterManual(phone: string, now: string)
    ensures var c := ManualMark(NewCaller(phone, now, false), "Q2", "Manually marked");
      MarkFirstUnanswered(c, 90, "Discussed in 90s call").answered == ["Q2", "Q1"]
  {
    var c := ManualMark(NewCaller(phone, now, false), "Q2", "Manually marked");
    assert c.answered == ["Q2"];
    assert FirstUnanswered(c.answered, 0) == Some(0);
  }

  /**
   * A completed call as the duration-based servers record it: one more call
   * and one history entry, the last-call stamp where the server keeps one,
   * then the duration rule.
   */
  function CompleteCall(c: Caller, entry: CallEntry, lastCall: Option<string>, seconds: int, note: string): Caller
  {
    MarkNextByDuration(RecordCall(c, entry, lastCall), seconds, note)
  }

  /** A completed call counts once, keeps `call_count == |call_history|`, and keeps the duration path in order. */
  lemma CompleteCallSpec(c: Caller, entry: CallEntry, lastCall: Option<string>, seconds: int, note: string)
    ensures var r := CompleteCall(c, entry, lastCall, seconds, note);
      && r.callCount == c.callCount + 1
      && r.history == c.history + [entry]
      && r.transcripts == c.transcripts
      && (CountsAgree(c) ==> CountsAgree(r))
      && IsPrefix(c.answered, r.answered)
      && (|r.answered| > |c.answered| <==> seconds > 60 && |c.answered| < 4)
      && (OnDurationPath(c) ==> OnDurationPath(r) && NoDuplicates(r.answered))
  {
    var d := RecordCall(c, entry, lastCall);
    DurationAppendOnly(d, seconds, note);
    if OnDurationPath(c) {
      DurationKeepsPath(d, seconds, note);
    }
  }

  // ---------------------------------------------------------------------------
  // Manual marking
  // ---------------------------------------------------------------------------

  /** `/mark-answered` on an existing record: append the id with its note unless it is already present. */
  function ManualMark(c: Caller, id: string, note: string): Caller
  {
    if id in c.answered then c
    else c.(answered := c.answered + [id], notes := c.notes[id := note])
  }

  /** Marking by hand appends the id once, keeps the note of an id already present, and never duplicates. */
  lemma ManualMarkSpec(c: Caller, id: string, note: string)
    ensures var r := ManualMark(c, id, note);
      && id in r.answered
      && IsPrefix(c.answered, r.answered)
      && (id in c.answered ==> r == c)
      && (id !in c.answered ==> r.answered == c.answered + [id] && NoteOf(r, id) == Some(note))
      && (NoDuplicates(c.answered) ==> NoDuplicates(r.answered))
      && ManualMark(r, id, note) == r
      && r.callCount == c.callCount && r.history == c.history
  {
    var r := ManualMark(c, id, note);
    assert r.answered[..|c.answered|] == c.answered;
  }

  // ---------------------------------------------------------------------------
  // The keyword rule
  // ---------------------------------------------------------------------------

  /** `keywords.some(kw => text.includes(kw))`. */
  predicate Mentioned(keywords: seq<string>, text: string) {
    exists kw :: kw in keywords && Contains(text, kw)
  }

  /** `transcript.filter(m => m.role === 'user').map(m => m.text)`. */
  function UserTexts(ms: seq<Message>): (r: seq<string>)
    ensures |r| <= |ms|
    ensures forall t :: t in r <==> exists i :: 0 <= i < |ms| && ms[i].role == "user" && ms[i].text == t
  {
    if |ms| == 0 then []
    else (if ms[0].role == "user" then [ms[0].text] else []) + UserTexts(ms[1..])
  }

  /** The texts keep the transcript's order: those of a concatenation are the concatenation of the texts. */
  lemma {:induction false} UserTextsAppend(a: seq<Message>, b: seq<Message>)
    ensures UserTexts(a + b) == UserTexts(a) + UserTexts(b)
    decreases |a|
  {
    if |a| == 0 {
      assert a + b == b;
    } else {
      assert (a + b)[0] == a[0];
      assert (a + b)[1..] == a[1..] + b;
      UserTextsAppend(a[1..], b);
    }
  }

  /** The user's side of a transcript, joined with single spaces. */
  function UserText(ms: seq<Message>): string {
    Join(UserTexts(ms), " ")
  }

  /** The note stored for a question the keyword rule marks: `userResponses.substring(0, 200) + '...'`. */
  function KeywordNote(ms: seq<Message>): (r: string)
    ensures |r| <= 203 && EndsWith(r, "...")
    ensures StartsWith(r, Take(UserText(ms), 200))
  {
    Take(UserText(ms), 200) + "..."
  }

  /** One step of the `TIER1_QUESTIONS.forEach`: mark the question `id` when it is unanswered and mentioned. */
  function MarkIfMentioned(c: Caller, id: string, text: string, note: string): Caller
  {
    if id !in c.answered && Mentioned(KeywordsFor(id), text) then
      c.(answered := c.answered + [id], notes := c.notes[id := note])
    else c
  }

  /** The `forEach` over `TIER1_QUESTIONS[i..]`. */
  function MarkByKeywordsFrom(c: Caller, i: nat, text: string, note: string): Caller
    decreases |Tier1Ids| - i
  {
    if i >= |Tier1Ids| then c
    else MarkByKeywordsFrom(MarkIfMentioned(c, Tier1Ids[i], text, note), i + 1, text, note)
  }

  /** The keyword rule over a whole transcript: the user text is joined, lower-cased and searched. */
  function MarkByKeywords(c: Caller, ms: seq<Message>): Caller {
    MarkByKeywordsFrom(c, 0, Lower(UserText(ms)), KeywordNote(ms))
  }

  /** Reference definition: the ids among `Tier1Ids[i..]`, in order, that are unanswered in `answered` and mentioned. */
  function NewlyMentioned(answered: seq<string>, text: string, i: nat): (r: seq<string>)
    ensures forall id :: id in r ==> id !in answered
    ensures i <= 4 ==> forall id :: id in r ==> id in Tier1Ids[i..]
    decreases 4 - i
  {
    if i >= 4 then []
    else
      var id := Tier1Ids[i];
      (if id !in answered && Mentioned(KeywordsFor(id), text) then [id] else [])
        + NewlyMentioned(answered, text, i + 1)
  }

  lemma {:induction false} NewlyMentionedIgnoresEarlier(answered: seq<string>, text: string, i: nat, j: nat)
    requires j < i <= 4
    ensures NewlyMentioned(answered + [Tier1Ids[j]], text, i) == NewlyMentioned(answered, text, i)
    decreases 4 - i
  {
    if i < 4 {
      assert Tier1Ids[i] != Tier1Ids[j];
      NewlyMentionedIgnoresEarlier(answered, text, i + 1, j);
    }
  }

  /** The loop appends exactly the newly mentioned ids, in question order. */
  lemma {:induction false} MarkByKeywordsFromAnswers(c: Caller, i: nat, text: string, note: string)
    requires i <= 4
    ensures MarkByKeywordsFrom(c, i, text, note).answered == c.answered + NewlyMentioned(c.answered, text, i)
    decreases 4 - i
  {
    if i < 4 {
      var id := Tier1Ids[i];
      var c' := MarkIfMentioned(c, Tier1Ids[i], text, note);
      assert MarkByKeywordsFrom(c, i, text, note) == MarkByKeywordsFrom(c', i + 1, text, note);
      MarkByKeywordsFromAnswers(c', i + 1, text, note);
      var rest := NewlyMentioned(c.answered, text, i + 1);
      if id !in c.answered && Mentioned(KeywordsFor(id), text) {
        NewlyMentionedIgnoresEarlier(c.answered, text, i + 1, i);
        assert c'.answered == c.answered + [id];
        assert NewlyMentioned(c.answered, text, i) == [id] + rest;
        assert c'.answered + NewlyMentioned(c'.answered, text, i + 1) == c.answered + ([id] + rest);
      } else {
        assert c' == c;
        assert NewlyMentioned(c.answered, text, i) == rest;
      }
    }
  }

  /** Each newly marked id gets the shared note; every other note is kept. */
  lemma {:induction false} MarkByKeywordsFromNotes(c: Caller, i: nat, text: string, note: string, id: string)
    requires i <= 4
    ensures NoteOf(MarkByKeywordsFrom(c, i, text, note), id)
      == if id in NewlyMentioned(c.answered, text, i) then Some(note) else NoteOf(c, id)
    decreases 4 - i
  {
    if i < 4 {
      var c' := MarkIfMentioned(c, Tier1Ids[i], text, note);
      MarkByKeywordsFromNotes(c', i + 1, text, note, id);
      if Tier1Ids[i] !in c.answered && Mentioned(KeywordsFor(Tier1Ids[i]), text) {
        NewlyMentionedIgnoresEarlier(c.answered, text, i + 1, i);
      }
    }
  }

  /** The loop touches nothing but the answers and the notes. */
  lemma {:induction false} MarkByKeywordsFromFrame(c: Caller, i: nat, text: string, note: string)
    ensures MarkByKeywordsFrom(c, i, text, note).(answered := c.answered, notes := c.notes) == c
    decreases |Tier1Ids| - i
  {
    if i < |Tier1Ids| {
      MarkByKeywordsFromFrame(MarkIfMentioned(c, Tier1Ids[i], text, note), i + 1, text, note);
    }
  }

  /** A question ends up answered exactly when it was answered before or one of its keywords was said. */
  lemma MarkByKeywordsMembership(c: Caller, text: string, note: string, q: Question)
    requires q in Tier1
    ensures q.id in MarkByKeywordsFrom(c, 0, text, note).answered
      <==> q.id in c.answered || Mentioned(KeywordsFor(q.id), text)
  {
    MarkByKeywordsFromAnswers(c, 0, text, note);
    NewlyMentionedMembers(c.answered, text, 0, q.id);
  }

  lemma {:induction false} NewlyMentionedMembers(answered: seq<string>, text: string, i: nat, id: string)
    requires i <= 4 && id in Tier1Ids[i..]
    ensures id in NewlyMentioned(answered, text, i) <==> id !in answered && Mentioned(KeywordsFor(id), text)
    decreases 4 - i
  {
    if Tier1Ids[i] != id {
      assert id in Tier1Ids[i + 1..];
      NewlyMentionedMembers(answered, text, i + 1, id);
    } else {
      assert id !in Tier1Ids[i + 1..];
    }
  }

  lemma {:induction false} NewlyMentionedDistinct(answered: seq<string>, text: string, i: nat)
    requires i <= 4
    ensures NoDuplicates(NewlyMentioned(answered, text, i))
    decreases 4 - i
  {
    if i < 4 {
      NewlyMentionedDistinct(answered, text, i + 1);
      assert Tier1Ids[i] !in Tier1Ids[i + 1..];
    }
  }

  /** The keyword rule never removes or reorders an answer and never introduces a duplicate. */
  lemma MarkByKeywordsAppendOnly(c: Caller, ms: seq<Message>)
    ensures IsPrefix(c.answered, MarkByKeywords(c, ms).answered)
    ensures NoDuplicates(c.answered) ==> NoDuplicates(MarkByKeywords(c, ms).answered)
    ensures |MarkByKeywords(c, ms).answered| <= |c.answered| + 4
    ensures MarkByKeywords(c, ms).callCount == c.callCount
    ensures MarkByKeywords(c, ms).history == c.history
  {
    var text, note := Lower(UserText(ms)), KeywordNote(ms);
    MarkByKeywordsFromAnswers(c, 0, text, note);
    MarkByKeywordsFromFrame(c, 0, text, note);
    var added := NewlyMentioned(c.answered, text, 0);
    var r := MarkByKeywords(c, ms);
    assert r.answered[..|c.answered|] == c.answered;
    NewlyMentionedDistinct(c.answered, text, 0);
    NewlyMentionedLength(c.answered, text, 0);
    if NoDuplicates(c.answered) {
      forall a, b | 0 <= a < b < |r.answered| ensures r.answered[a] != r.answered[b] {
        if b >= |c.answered| {
          assert r.answered[b] == added[b - |c.answered|];
          if a >= |c.answered| {
            assert r.answered[a] == added[a - |c.answered|];
          } else {
            assert r.answered[a] in c.answered;
            assert r.answered[b] in added;
          }
        }
      }
    }
  }

  lemma {:induction false} NewlyMentionedLength(answered: seq<string>, text: string, i: nat)
    requires i <= 4
    ensures |NewlyMentioned(answered, text, i)| <= 4 - i
    decreases 4 - i
  {
    if i < 4 {
      NewlyMentionedLength(answered, text, i + 1);
    }
  }

  /** Every note the keyword rule writes is at most 200 characters of user text plus "...". */
  lemma MarkByKeywordsNotes(c: Caller, ms: seq<Message>, id: string)
    requires id in MarkByKeywords(c, ms).answered && id !in c.answered
    ensures NoteOf(MarkByKeywords(c, ms), id) == Some(KeywordNote(ms))
    ensures |KeywordNote(ms)| <= 203
  {
    var text, note := Lower(UserText(ms)), KeywordNote(ms);
    MarkByKeywordsFromAnswers(c, 0, text, note);
    MarkByKeywordsFromNotes(c, 0, text, note, id);
  }

  /**
   * The Q2 keyword "went wrong" contains the Q1 keyword "wrong", so a caller
   * who says "went wrong" has both questions marked.
   */
  lemma WentWrongMarksBoth(c: Caller, text: string, note: string)
    requires Contains(text, "went wrong")
    ensures "Q1" in MarkByKeywordsFrom(c, 0, text, note).answered
    ensures "Q2" in MarkByKeywordsFrom(c, 0, text, note).answered
  {
    assert OccursAt("went wrong", "wrong", 5);
    ContainsIff("went wrong", "wrong");
    ContainsTransitive(text, "went wrong", "wrong");
    assert "wrong" in KeywordsFor("Q1");
    assert "went wrong" in KeywordsFor("Q2");
    MarkByKeywordsMembership(c, text, note, Q1);
    MarkByKeywordsMembership(c, text, note, Q2);
  }

  /**
   * The `forEach` of the transcript handlers as a loop over the questions,
   * updating the record in place.
   */
  method ApplyKeywordRule(c: Caller, ms: seq<Message>) returns (r: Caller)
    ensures r == MarkByKeywords(c, ms)
  {
    var text := Lower(UserText(ms));
    var note := KeywordNote(ms);
    r := c;
    var i := 0;
    while i < |Tier1Ids|
      invariant 0 <= i <= |Tier1Ids|
      invariant MarkByKeywordsFrom(r, i, text, note) == MarkByKeywords(c, ms)
    {
      var id := Tier1Ids[i];
      if id !in r.answered && Mentioned(KeywordsFor(id), text) {
        r := r.(answered := r.answered + [id], notes := r.notes[id := note]);
      }
      i := i + 1;
    }
  }

  // ---------------------------------------------------------------------------
  // The list of covered questions in the context renderers
  // ---------------------------------------------------------------------------

  /**
   * How a renderer lists the answered questions: the bullet in front, whether
   * ids outside Q1..Q4 are skipped (`if (q)`), and the text used for a missing
   * note (`notes || 'Covered'`), where `None` means a line needs a truthy note.
   */
  datatype LineStyle = LineStyle(bullet: string, knownOnly: bool, missingNote: Option<string>)

  /** The line written for one answered id, if any. */
  function ProgressLine(style: LineStyle, c: Caller, id: string): (r: Option<string>)
    ensures r.Some? <==>
      (!style.knownOnly || id in Tier1Ids) && (style.missingNote.Some? || Truthy(NoteOf(c, id)))
    ensures r.Some? ==> StartsWith(r.value, style.bullet) && EndsWith(r.value, "\n")
  {
    var q := Find(id);
    var note := NoteOf(c, id);
    if (style.knownOnly && q.None?) || (style.missingNote.None? && !Truthy(note)) then None
    else
      var name := if q.Some? then q.value.short else id;
      var text := if Truthy(note) then note.value else style.missingNote.value;
      Some(style.bullet + name + ": " + text + "\n")
  }

  /** The lines for `ids`, in order (`questions_answered.forEach(... context += ...)`). */
  function ProgressText(style: LineStyle, c: Caller, ids: seq<string>): string
  {
    if |ids| == 0 then ""
    else
      var line := ProgressLine(style, c, ids[0]);
      (if line.Some? then line.value else "") + ProgressText(style, c, ids[1..])
  }

  /** Lines follow the order of `questions_answered`: the text of a concatenation is the concatenation of the texts. */
  lemma {:induction false} ProgressTextAppend(style: LineStyle, c: Caller, a: seq<string>, b: seq<string>)
    ensures ProgressText(style, c, a + b) == ProgressText(style, c, a) + ProgressText(style, c, b)
  {
    if |a| == 0 {
      assert a + b == b;
    } else {
      var head := ProgressLine(style, c, a[0]);
      var l := if head.Some? then head.value else "";
      assert (a + b)[0] == a[0];
      assert (a + b)[1..] == a[1..] + b;
      assert ProgressText(style, c, a + b) == l + ProgressText(style, c, a[1..] + b);
      ProgressTextAppend(style, c, a[1..], b);
    }
  }

  /** The list is empty exactly when no answered id qualifies for a line. */
  lemma {:induction false} ProgressTextEmpty(style: LineStyle, c: Caller, ids: seq<string>)
    ensures ProgressText(style, c, ids) == "" <==> forall id :: id in ids ==> ProgressLine(style, c, id).None?
  {
    if |ids| > 0 {
      ProgressTextEmpty(style, c, ids[1..]);
      var line := ProgressLine(style, c, ids[0]);
      if line.Some? {
        assert |line.value| > 0;
      }
    }
  }

  /**
   * The `forEach` that appends the lines, as a loop; `context += line` for
   * every answered id that qualifies.
   */
  method BuildProgress(style: LineStyle, c: Caller) returns (text: string)
    ensures text == ProgressText(style, c, c.answered)
  {
    text := "";
    var i := 0;
    while i < |c.answered|
      invariant 0 <= i <= |c.answered|
      invariant text == ProgressText(style, c, c.answered[..i])
    {
      var line := ProgressLine(style, c, c.answered[i]);
      ProgressTextAppend(style, c, c.answered[..i], [c.answered[i]]);
      assert c.answered[..i + 1] == c.answered[..i] + [c.answered[i]];
      if line.Some? {
        text := text + line.value;
      }
      i := i + 1;
    }
    assert c.answered[..i] == c.answered;
  }
  // ---------------------------------------------------------------------------
  // The list of all four questions at the end of a prompt
  // ---------------------------------------------------------------------------

  /**
   * `TIER1_QUESTIONS.forEach((q, i) => context += item(i, q, answered))` from
   * index `i` on, where `answered` is `questions_answered.includes(q.id)`.
   */
  function ChecklistFrom(c: Caller, item: (nat, Question, bool) -> string, i: nat): string
    decreases 4 - i
  {
    if i >= 4 then ""
    else item(i, Tier1[i], Tier1[i].id in c.answered) + ChecklistFrom(c, item, i + 1)
  }

  function Checklist(c: Caller, item: (nat, Question, bool) -> string): string {
    ChecklistFrom(c, item, 0)
  }

  /** The checklist names the four questions in definition order, each flagged by whether its id was answered. */
  lemma ChecklistSpec(c: Caller, item: (nat, Question, bool) -> string)
    ensures Checklist(c, item) ==
      item(0, Q1, "Q1" in c.answered) + item(1, Q2, "Q2" in c.answered)
        + item(2, Q3, "Q3" in c.answered) + item(3, Q4, "Q4" in c.answered)
  {
    assert ChecklistFrom(c, item, 3) == item(3, Q4, "Q4" in c.answered) + "";
  }

  /** The checklist depends on which ids are answered, not on their order or count. */
  lemma {:induction false} ChecklistByMembership(c: Caller, d: Caller, item: (nat, Question, bool) -> string, i: nat)
    requires forall q :: q in Tier1 ==> (q.id in c.answered <==> q.id in d.answered)
    ensures ChecklistFrom(c, item, i) == ChecklistFrom(d, item, i)
    decreases 4 - i
  {
    if i < 4 {
      assert Tier1[i] in Tier1;
      ChecklistByMembership(c, d, item, i + 1);
    }
  }
}
