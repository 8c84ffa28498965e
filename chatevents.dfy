/**
 * The events of a voice-assistant chat group, as listed after a call, and the
 * transcript the transcript-fetching servers extract from them: the user and
 * agent messages, in order, each with its role and text.
 */
module ChatEvents {
  import opened Text
  import opened Discovery

  /** One chat-group event: its `type`, its `messageText` and its `timestamp`, where present. */
  datatype ChatEvent = ChatEvent(eventType: string, messageText: Option<string>, timestamp: Option<string>)

  predicate IsMessage(e: ChatEvent) {
    e.eventType == "USER_MESSAGE" || e.eventType == "AGENT_MESSAGE"
  }

  /** The transcript entry of a message event: `user` or `assistant`, and `event.messageText || ''`. */
  function ToMessage(e: ChatEvent): Message {
    Message(if e.eventType == "USER_MESSAGE" then "user" else "assistant", OrElse(e.messageText, ""), e.timestamp)
  }

  /** The transcript of a list of events: the message events, converted, in their original order. */
  function Transcript(events: seq<ChatEvent>): (r: seq<Message>)
    ensures |r| <= |events|
  {
    if |events| == 0 then []
    else (if IsMessage(events[0]) then [ToMessage(events[0])] else []) + Transcript(events[1..])
  }

  /** Extraction keeps the order of the events: the transcript of a concatenation is the concatenation of the transcripts. */
  lemma {:induction false} TranscriptAppend(a: seq<ChatEvent>, b: seq<ChatEvent>)
    ensures Transcript(a + b) == Transcript(a) + Transcript(b)
  {
    if |a| == 0 {
      assert a + b == b;
    } else {
      var h := if IsMessage(a[0]) then [ToMessage(a[0])] else [];
      assert (a + b)[0] == a[0] && (a + b)[1..] == a[1..] + b;
      assert Transcript(a + b) == h + Transcript(a[1..] + b);
      TranscriptAppend(a[1..], b);
      assert Transcript(a) == h + Transcript(a[1..]);
    }
  }

  /**
   * Every message event is in the transcript, and every transcript entry
   * comes from a message event; roles are only `user` and `assistant`, and an
   * event without text gives an empty text.
   */
  lemma {:induction false} TranscriptMembers(events: seq<ChatEvent>)
    ensures forall e :: e in events && IsMessage(e) ==> ToMessage(e) in Transcript(events)
    ensures forall m :: m in Transcript(events) ==> exists e :: e in events && IsMessage(e) && m == ToMessage(e)
    ensures forall m :: m in Transcript(events) ==> m.role == "user" || m.role == "assistant"
  {
    if |events| > 0 {
      TranscriptMembers(events[1..]);
      assert events == [events[0]] + events[1..];
      forall m | m in Transcript(events)
        ensures exists e :: e in events && IsMessage(e) && m == ToMessage(e)
      {
        if m !in Transcript(events[1..]) {
          assert IsMessage(events[0]) && m == ToMessage(events[0]);
        } else {
          var e :| e in events[1..] && IsMessage(e) && m == ToMessage(e);
          assert e in events;
        }
      }
    }
  }

  /** The transcript is empty exactly when no event is a user or agent message. */
  lemma {:induction false} TranscriptEmpty(events: seq<ChatEvent>)
    ensures Transcript(events) == [] <==> forall e :: e in events ==> !IsMessage(e)
  {
    if |events| > 0 {
      TranscriptEmpty(events[1..]);
      assert events == [events[0]] + events[1..];
    }
  }

  /** The `for (const event of events.data)` loop that pushes the message events. */
  method ExtractTranscript(events: seq<ChatEvent>) returns (transcript: seq<Message>)
    ensures transcript == Transcript(events)
  {
    transcript := [];
    var i := 0;
    while i < |events|
      invariant 0 <= i <= |events|
      invariant transcript == Transcript(events[..i])
    {
      TranscriptAppend(events[..i], [events[i]]);
      assert events[..i + 1] == events[..i] + [events[i]];
      if IsMessage(events[i]) {
        transcript := transcript + [ToMessage(events[i])];
      }
      i := i + 1;
    }
    assert events[..i] == events;
  }
}
