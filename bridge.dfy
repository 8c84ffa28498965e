/**
 * The WebSocket bridge server: it relays audio between the phone call and the
 * voice assistant, collects the user and assistant messages into a
 * transcript, and when the assistant's socket closes saves the transcript on
 * the caller's record and marks the questions whose keywords the caller said.
 */
module Bridge {
  import opened Text
  import opened Discovery
  import opened CallerStore

  /** `getOrCreateCaller`: the record starts with `transcripts: []`. */
  method GetOrCreateCaller(store: Store, phone: string, now: string) returns (c: Caller)
    modifies store
    ensures store.callers == GetOrCreateIn(old(store.callers), phone, NewCaller(phone, now, true))
    ensures c == store.callers[phone]
    ensures store.lastUpdate == old(store.lastUpdate)
  {
    c := store.GetOrCreate(phone, NewCaller(phone, now, true));
  }

  /** A record created by the bridge carries every kind of history, all empty. */
  lemma NewCallerEmpty(phone: string, now: string)
    ensures var c := NewCaller(phone, now, true);
      c.callCount == 0 && c.answered == [] && c.notes == map[] && c.history == [] && c.transcripts == Some([])
      && CountsAgree(c) && TranscriptsAgree(c) && OnDurationPath(c)
  {
  }

  // ---------------------------------------------------------------------------
  // generateConversationContext
  // ---------------------------------------------------------------------------

  const NewCallerText: string := "This is a NEW caller. " + "Welcome them and start with Question 1."
  const CompleteText: string := "ALL 4 QUESTIONS COMPLETE! " + "Thank them for their insights.\n"

  /** A line needs a known id and a truthy note (`if (q && notes)`). */
  const Style: LineStyle := LineStyle("✓ ", true, None)

  function Header(c: Caller): string {
    "RETURNING CALLER - Call #" + NatToString(c.callCount + 1) + "\n\n"
  }

  function Covered(c: Caller): string {
    if |c.answered| > 0 then "PREVIOUS CONVERSATIONS:\n" + ProgressText(Style, c, c.answered) + "\n" else ""
  }

  function NextBlock(q: Question): string {
    "TODAY'S FOCUS:\n" + q.short + "\n" + "\"" + q.full + "\"\n"
  }

  /** What a returning caller is asked: the question at index `|questions_answered|`, or the completion text. */
  function Ask(c: Caller): string {
    if |c.answered| < |Tier1| then NextBlock(Tier1[|c.answered|]) else CompleteText
  }

  /** `generateConversationContext(caller)`. */
  function Context(c: Caller): string {
    if c.callCount == 0 then NewCallerText else Header(c) + Covered(c) + Ask(c)
  }

  /** The prompt sent in the session settings when the assistant's socket opens. */
  function FullPrompt(basePrompt: string, c: Caller): string {
    basePrompt + "\n\n=== CONVERSATION CONTEXT ===\n" + Context(c)
  }

  /**
   * A caller gets the new-caller text exactly when `call_count` is 0;
   * otherwise the call number `call_count + 1`, then the question at index
   * `|questions_answered|` or, with four answers, the completion text.
   */
  lemma ContextCases(c: Caller)
    ensures Context(c) == NewCallerText <==> c.callCount == 0
    ensures c.callCount > 0 ==> StartsWith(Context(c), Header(c)) && EndsWith(Context(c), Ask(c))
    ensures Ask(c) == if |c.answered| < 4 then NextBlock(Tier1[|c.answered|]) else CompleteText
  {
    if c.callCount > 0 {
      AffixesOfConcat3(Header(c), Covered(c), Ask(c));
      assert NewCallerText[10] == 'N';
      assert Context(c)[10] == 'C';
    }
  }

  /** A covered line is written only for a known id with a truthy note. */
  lemma CoveredLine(c: Caller, id: string)
    ensures ProgressLine(Style, c, id).Some? <==> id in Tier1Ids && Truthy(NoteOf(c, id))
    ensures ProgressLine(Style, c, id).Some? ==>
      ProgressLine(Style, c, id) == Some("✓ " + Find(id).value.short + ": " + c.notes[id] + "\n")
  {
  }

  /** The socket handler: fetch or create the record and build the prompt from it. */
  method Connect(store: Store, phone: string, now: string, basePrompt: string) returns (prompt: string)
    modifies store
    ensures store.callers == GetOrCreateIn(old(store.callers), phone, NewCaller(phone, now, true))
    ensures store.lastUpdate == old(store.lastUpdate)
    ensures prompt == FullPrompt(basePrompt, store.callers[phone])
  {
    var c := GetOrCreateCaller(store, phone, now);
    prompt := FullPrompt(basePrompt, c);
  }

  // ---------------------------------------------------------------------------
  // Collecting the transcript
  // ---------------------------------------------------------------------------

  /**
   * The transcript entry for one message from the assistant's socket: only
   * `user_message` and `assistant_message` are kept, and the text is
   * `message.message?.content || message.text` (an absent text is stored as
   * the empty string).
   */
  function Capture(messageType: string, content: Option<string>, text: Option<string>, now: string): (r: Option<Message>)
    ensures r.Some? <==> messageType == "user_message" || messageType == "assistant_message"
    ensures r.Some? ==> (r.value.role == "user" <==> messageType == "user_message")
    ensures r.Some? && Truthy(content) ==> r.value.text == content.value
    ensures r.Some? && !Truthy(content) ==> r.value.text == (if text.Some? then text.value else "")
    ensures r.Some? ==> r.value.timestamp == Some(now)
  {
    if messageType == "user_message" || messageType == "assistant_message" then
      var body := if Truthy(content) then content.value else if text.Some? then text.value else "";
      Some(Message(if messageType == "user_message" then "user" else "assistant", body, Some(now)))
    else None
  }

  // ---------------------------------------------------------------------------
  // saveConversation
  // ---------------------------------------------------------------------------

  /** Whether `saveConversation` writes anything: a non-empty transcript, a stored record, and a `transcripts` array to push onto. */
  predicate Saves(m: map<string, Caller>, phone: string, transcript: seq<Message>) {
    |transcript| > 0 && phone in m && m[phone].transcripts.Some?
  }

  /** The call counted, one history entry and one transcript entry appended. */
  function RecordTranscript(c: Caller, callSid: string, transcript: seq<Message>, now: string): Caller
    requires c.transcripts.Some?
  {
    c.(callCount := c.callCount + 1,
       history := c.history + [TranscribedCall(callSid, None, now, |transcript|)],
       transcripts := Some(c.transcripts.value + [TranscriptRecord(callSid, None, now, transcript)]))
  }

  /** The caller map after `saveConversation`. */
  function AfterSave(m: map<string, Caller>, phone: string, callSid: string, transcript: seq<Message>, now: string)
    : map<string, Caller>
  {
    if Saves(m, phone, transcript) then
      m[phone := MarkByKeywords(RecordTranscript(m[phone], callSid, transcript, now), transcript)]
    else m
  }

  /**
   * An empty transcript or a missing record changes nothing. A save counts
   * the call once, appends exactly one history entry and one transcript,
   * keeps every earlier answer in place without duplicating any, marks a
   * question exactly when it was already answered or one of its keywords
   * occurs in the lower-cased user text, and touches no other record.
   */
  lemma SaveSpec(m: map<string, Caller>, phone: string, callSid: string, transcript: seq<Message>, now: string)
    ensures |transcript| == 0 || phone !in m ==> AfterSave(m, phone, callSid, transcript, now) == m
    ensures var r := AfterSave(m, phone, callSid, transcript, now);
      && r.Keys == m.Keys
      && (forall p :: p in m && p != phone ==> r[p] == m[p])
      && (AllCountsAgree(m) ==> AllCountsAgree(r))
      && (AllDistinct(m) ==> AllDistinct(r))
      && (Saves(m, phone, transcript) ==>
            && r[phone].callCount == m[phone].callCount + 1
            && r[phone].history == m[phone].history + [TranscribedCall(callSid, None, now, |transcript|)]
            && r[phone].transcripts == Some(m[phone].transcripts.value + [TranscriptRecord(callSid, None, now, transcript)])
            && (TranscriptsAgree(m[phone]) ==> TranscriptsAgree(r[phone]))
            && IsPrefix(m[phone].answered, r[phone].answered)
            && (forall q :: q in Tier1 ==>
                  (q.id in r[phone].answered <==> q.id in m[phone].answered || Mentioned(KeywordsFor(q.id), Lower(UserText(transcript))))))
  {
    if Saves(m, phone, transcript) {
      SavedCaller(m[phone], callSid, transcript, now);
      ReplaceRecord(m, phone, MarkByKeywords(RecordTranscript(m[phone], callSid, transcript, now), transcript));
    }
  }

  /** The record of a save: one more call, history entry and transcript, and the keyword rule on the caller's words. */
  lemma SavedCaller(c: Caller, callSid: string, transcript: seq<Message>, now: string)
    requires c.transcripts.Some?
    ensures var r := MarkByKeywords(RecordTranscript(c, callSid, transcript, now), transcript);
      && r.callCount == c.callCount + 1
      && r.history == c.history + [TranscribedCall(callSid, None, now, |transcript|)]
      && r.transcripts == Some(c.transcripts.value + [TranscriptRecord(callSid, None, now, transcript)])
      && (TranscriptsAgree(c) ==> TranscriptsAgree(r))
      && (CountsAgree(c) ==> CountsAgree(r))
      && (NoDuplicates(c.answered) ==> NoDuplicates(r.answered))
      && IsPrefix(c.answered, r.answered)
      && (forall q :: q in Tier1 ==>
            (q.id in r.answered <==> q.id in c.answered || Mentioned(KeywordsFor(q.id), Lower(UserText(transcript)))))
  {
    var d := RecordTranscript(c, callSid, transcript, now);
    MarkByKeywordsAppendOnly(d, transcript);
    MarkByKeywordsFromFrame(d, 0, Lower(UserText(transcript)), KeywordNote(transcript));
    forall q | q in Tier1
      ensures q.id in MarkByKeywords(d, transcript).answered
        <==> q.id in d.answered || Mentioned(KeywordsFor(q.id), Lower(UserText(transcript)))
    {
      MarkByKeywordsMembership(d, Lower(UserText(transcript)), KeywordNote(transcript), q);
    }
  }

  /** Every note written by a save is at most 200 characters of the user's words plus "...". */
  lemma SaveNotes(m: map<string, Caller>, phone: string, callSid: string, transcript: seq<Message>, now: string, id: string)
    requires Saves(m, phone, transcript)
    requires id in AfterSave(m, phone, callSid, transcript, now)[phone].answered && id !in m[phone].answered
    ensures NoteOf(AfterSave(m, phone, callSid, transcript, now)[phone], id) == Some(KeywordNote(transcript))
    ensures |KeywordNote(transcript)| <= 203
  {
    MarkByKeywordsNotes(RecordTranscript(m[phone], callSid, transcript, now), transcript, id);
  }

  /** `saveConversation(callerPhone, callSid, transcript)`. */
  method SaveConversation(store: Store, phone: string, callSid: string, transcript: seq<Message>, now: string)
    modifies store
    ensures store.callers == AfterSave(old(store.callers), phone, callSid, transcript, now)
    ensures store.lastUpdate == old(store.lastUpdate)
  {
    if |transcript| == 0 {
      return;
    }
    if phone !in store.callers || store.callers[phone].transcripts.None? {
      return;
    }
    var c := store.callers[phone];
    c := c.(callCount := c.callCount + 1, history := c.history + [TranscribedCall(callSid, None, now, |transcript|)]);
    c := c.(transcripts := Some(c.transcripts.value + [TranscriptRecord(callSid, None, now, transcript)]));
    c := ApplyKeywordRule(c, transcript);
    store.Put(phone, c);
  }

  /** `/reset/:phone`: deletes the record, or 404. */
  method Reset(store: Store, phone: string) returns (status: int)
    modifies store
    ensures status == (if phone in old(store.callers) then 200 else 404)
    ensures store.callers == if status == 200 then ResetIn(old(store.callers), phone).value else old(store.callers)
    ensures store.lastUpdate == old(store.lastUpdate)
  {
    var found := store.Reset(phone);
    status := if found then 200 else 404;
  }

  // ---------------------------------------------------------------------------
  // Downsampling 16 kHz PCM to 8 kHz
  // ---------------------------------------------------------------------------

  type byte = x: int | 0 <= x < 256

  /** `buf.readInt16LE(k)` on the bytes `lo`, `hi`: a signed 16-bit two's-complement value. */
  function ReadInt16LE(lo: byte, hi: byte): (v: int)
    ensures -32768 <= v < 32768
  {
    var u := lo + 256 * hi;
    if u >= 32768 then u - 65536 else u
  }

  /** `buf.writeInt16LE(v, k)`: the two bytes written, low byte first. */
  function WriteInt16LE(v: int): (bytes: (byte, byte))
    requires -32768 <= v < 32768
  {
    var u := if v < 0 then v + 65536 else v;
    (u % 256, u / 256)
  }

  /** Writing back a sample that was read gives the same two bytes, and reading a written sample gives the value. */
  lemma Int16RoundTrip(lo: byte, hi: byte, v: int)
    requires -32768 <= v < 32768
    ensures WriteInt16LE(ReadInt16LE(lo, hi)) == (lo, hi)
    ensures ReadInt16LE(WriteInt16LE(v).0, WriteInt16LE(v).1) == v
  {
  }

  /** The 8 kHz stream: every other 16-bit sample, that is, bytes 4i and 4i+1 for each whole group of four. */
  function Downsampled(pcm: seq<byte>): (r: seq<byte>)
    ensures |r| == 2 * (|pcm| / 4)
    decreases |pcm|
  {
    if |pcm| < 4 then [] else [pcm[0], pcm[1]] + Downsampled(pcm[4..])
  }

  /** Output bytes 2i and 2i+1 are input bytes 4i and 4i+1. */
  lemma {:induction false} DownsampledBytes(pcm: seq<byte>)
    ensures forall i :: 0 <= i < |pcm| / 4 ==>
      Downsampled(pcm)[2 * i] == pcm[4 * i] && Downsampled(pcm)[2 * i + 1] == pcm[4 * i + 1]
    decreases |pcm|
  {
    if |pcm| >= 4 {
      var rest := pcm[4..];
      var d := Downsampled(pcm);
      DownsampledBytes(rest);
      assert d == [pcm[0], pcm[1]] + Downsampled(rest);
      assert |rest| / 4 == |pcm| / 4 - 1;
      forall i | 1 <= i < |pcm| / 4
        ensures d[2 * i] == pcm[4 * i] && d[2 * i + 1] == pcm[4 * i + 1]
      {
        var j := i - 1;
        assert d[2 * i] == Downsampled(rest)[2 * j] && d[2 * i + 1] == Downsampled(rest)[2 * j + 1];
        assert rest[4 * j] == pcm[4 * i] && rest[4 * j + 1] == pcm[4 * i + 1];
      }
    }
  }

  /** Output sample i is input sample 2i. */
  lemma DownsampledSamples(pcm: seq<byte>, i: nat)
    requires i < |pcm| / 4
    ensures ReadInt16LE(Downsampled(pcm)[2 * i], Downsampled(pcm)[2 * i + 1]) == ReadInt16LE(pcm[4 * i], pcm[4 * i + 1])
  {
    DownsampledBytes(pcm);
  }

  /** A buffer holding bytes 4i and 4i+1 at 2i and 2i+1, for every whole group of four, is the 8 kHz stream. */
  lemma DownsampledFromPairs(out: seq<byte>, pcm: seq<byte>)
    requires |out| == 2 * (|pcm| / 4)
    requires forall k :: 0 <= k < |pcm| / 4 ==> out[2 * k] == pcm[4 * k] && out[2 * k + 1] == pcm[4 * k + 1]
    ensures out == Downsampled(pcm)
  {
    var d := Downsampled(pcm);
    DownsampledBytes(pcm);
    forall j | 0 <= j < |out|
      ensures out[j] == d[j]
    {
      var k := j / 2;
      assert j == 2 * k || j == 2 * k + 1;
    }
  }

  /**
   * The conversion loop: a zero-filled buffer of `2 * floor(n / 4)` bytes,
   * and for each i the sample read at byte `4i` written at byte `2i`.
   */
  method Downsample(pcm: array<byte>) returns (out: array<byte>)
    ensures fresh(out)
    ensures out[..] == Downsampled(pcm[..])
  {
    var numSamples := pcm.Length / 4;
    out := new byte[numSamples * 2](_ => 0);
    var i := 0;
    while i < numSamples
      invariant 0 <= i <= numSamples
      invariant forall k :: 0 <= k < i ==> out[2 * k] == pcm[4 * k] && out[2 * k + 1] == pcm[4 * k + 1]
    {
      var v := ReadInt16LE(pcm[4 * i], pcm[4 * i + 1]);
      var bytes := WriteInt16LE(v);
      Int16RoundTrip(pcm[4 * i], pcm[4 * i + 1], v);
      out[2 * i], out[2 * i + 1] := bytes.0, bytes.1;
      i := i + 1;
    }
    DownsampledFromPairs(out[..], pcm[..]);
  }
}
