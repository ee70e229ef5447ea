/** The client-to-upstream loop of the websocket handler (`receive_from_client`
    in backend/main.py): it folds the frames the browser sends into the sends
    made on the upstream session, tracking whether an utterance is open, and
    stops with a shutdown reason on disconnect or on a fatal error. */
module ClientReceive {
  import opened Wrappers
  import Shutdown

  /** The MIME type every forwarded audio chunk is tagged with. */
  const AudioMimeType := "audio/pcm;rate=24000"
  /** The `type` of the control message that ends an utterance. */
  const EndTurn := "end_turn"
  /** The ASGI event types the loop distinguishes. */
  const DisconnectEvent := "websocket.disconnect"
  const ReceiveEvent := "websocket.receive"

  /** What `json.loads` makes of a text frame. `NotJson` is a
      `JSONDecodeError`. A JSON object carries its `type` member when that
      member is a string; a missing or non-string member is `None`, since
      either compares unequal to "end_turn". `NonObject` is every other
      outcome that ends the loop as a fatal error: valid JSON that is not an
      object (on which `payload.get` raises), and a parse that raises
      something other than `JSONDecodeError` (an integer literal too long to
      convert, nesting too deep to recurse). */
  datatype Json = NotJson | Object(typeField: Option<string>) | NonObject

  /** An ASGI message dictionary: its `type`, `bytes` and `text` entries. */
  datatype Message = Message(eventType: Option<string>, bytes: Option<Bytes>, text: Option<Json>)

  /** One `websocket.receive()`: a message, or one of the exceptions it raises. */
  datatype Incoming = Received(message: Message) | DisconnectRaised | ReceiveFailed

  /** The `input` argument of `session.send`. */
  datatype Blob = Blob(data: Bytes, mimeType: string)

  /** One `session.send(input=..., end_of_turn=...)` on the upstream session. */
  datatype Send = Send(input: Option<Blob>, endOfTurn: bool)

  /** The send that forwards one audio chunk. */
  function AudioSend(data: Bytes): Send {
    Send(Some(Blob(data, AudioMimeType)), false)
  }

  /** The send that closes an utterance. */
  const EndOfTurnSend := Send(None, true)

  /** The loop state after one frame: the utterance flag, the sends made, and
      the shutdown reason when the frame ended the loop. */
  datatype Step = Step(turnOpen: bool, sends: seq<Send>, shutdown: Option<string>)

  /** `finalize_turn`: closes the open utterance with one end-of-turn send,
      and does nothing when none is open. */
  function FinalizeTurn(turnOpen: bool): (r: Step)
    ensures !r.turnOpen && r.shutdown.None?
    ensures turnOpen <==> r.sends == [EndOfTurnSend]
    ensures !turnOpen <==> r.sends == []
  {
    if turnOpen then Step(false, [EndOfTurnSend], None) else Step(false, [], None)
  }

  /** Finalizing twice sends nothing the second time. */
  lemma FinalizeIdempotent(turnOpen: bool)
    ensures FinalizeTurn(FinalizeTurn(turnOpen).turnOpen) == Step(false, [], None)
  {
  }

  /** Finalizes the utterance, then triggers shutdown with `reason`. */
  function FinalizeThenStop(turnOpen: bool, reason: string): Step {
    var f := FinalizeTurn(turnOpen);
    Step(f.turnOpen, f.sends, Some(reason))
  }

  /** One iteration of the `while True` loop, including the exception handlers
      that end it. */
  function StepFrame(turnOpen: bool, frame: Incoming): Step {
    match frame
    case DisconnectRaised => FinalizeThenStop(turnOpen, Shutdown.ClientClose)
    case ReceiveFailed => Step(turnOpen, [], Some(Shutdown.ClientFatal))
    case Received(m) =>
      if m.eventType == Some(DisconnectEvent) then FinalizeThenStop(turnOpen, Shutdown.ClientClose)
      else if m.eventType != Some(ReceiveEvent) then Step(turnOpen, [], None)
      else if m.bytes.Some? then Step(true, [AudioSend(m.bytes.value)], None)
      else if m.text.None? then Step(turnOpen, [], None)
      else match m.text.value
        case NotJson => Step(turnOpen, [], None)
        // `payload.get` on a list, string or number raises AttributeError,
        // as does the parse itself for the inputs it cannot convert
        case NonObject => Step(turnOpen, [], Some(Shutdown.ClientFatal))
        case Object(t) =>
          if t == Some(EndTurn) then FinalizeTurn(turnOpen) else Step(turnOpen, [], None)
  }

  /** A frame the loop ignores: an event of another type, an empty frame,
      non-JSON text, or a JSON object that is not an end-of-turn message. */
  predicate Ignorable(frame: Incoming) {
    frame.Received? &&
    var m := frame.message;
    m.eventType != Some(DisconnectEvent) &&
    (m.eventType != Some(ReceiveEvent) ||
     (m.bytes.None? &&
      (m.text.None? || m.text.value.NotJson? ||
       (m.text.value.Object? && m.text.value.typeField != Some(EndTurn)))))
  }

  /** An audio frame. */
  predicate IsAudio(frame: Incoming) {
    frame.Received? && frame.message.eventType == Some(ReceiveEvent) && frame.message.bytes.Some?
  }

  /** An end-of-turn control message. */
  predicate IsEndTurn(frame: Incoming) {
    frame.Received? && frame.message.eventType == Some(ReceiveEvent) && frame.message.bytes.None? &&
    frame.message.text == Some(Object(Some(EndTurn)))
  }

  /** A disconnect, whether delivered as an event or raised as an exception. */
  predicate IsDisconnect(frame: Incoming) {
    frame.DisconnectRaised? || (frame.Received? && frame.message.eventType == Some(DisconnectEvent))
  }

  /** A frame leaves the loop exactly as it was, whatever the utterance state,
      if and only if it is one the loop ignores. */
  lemma NeutralIffIgnorable(frame: Incoming)
    ensures (StepFrame(false, frame) == Step(false, [], None) && StepFrame(true, frame) == Step(true, [], None))
            <==> Ignorable(frame)
  {
  }

  /** An audio frame opens the utterance if needed and is forwarded as
      exactly one non-final audio send. */
  lemma AudioFrameForwarded(turnOpen: bool, frame: Incoming)
    requires IsAudio(frame)
    ensures StepFrame(turnOpen, frame) == Step(true, [AudioSend(frame.message.bytes.value)], None)
  {
  }

  /** An end-of-turn message closes an open utterance with exactly one
      end-of-turn send, and is a no-op when none is open. */
  lemma EndTurnFinalizes(turnOpen: bool, frame: Incoming)
    requires IsEndTurn(frame)
    ensures turnOpen ==> StepFrame(turnOpen, frame) == Step(false, [EndOfTurnSend], None)
    ensures !turnOpen ==> StepFrame(turnOpen, frame) == Step(false, [], None)
  {
  }

  /** A disconnect finalizes any open utterance and then stops the loop with
      the "client websocket close" reason. */
  lemma DisconnectFinalizesThenStops(turnOpen: bool, frame: Incoming)
    requires IsDisconnect(frame)
    ensures StepFrame(turnOpen, frame).sends == (if turnOpen then [EndOfTurnSend] else [])
    ensures StepFrame(turnOpen, frame).shutdown == Some(Shutdown.ClientClose)
    ensures !StepFrame(turnOpen, frame).turnOpen
  {
  }

  /** The loop over a finite prefix of the frames: every send it made, the
      utterance flag, how many frames it consumed, and the shutdown reason if
      it stopped (`None` means it is still waiting for the next frame). */
  datatype Run = Run(sends: seq<Send>, turnOpen: bool, consumed: nat, shutdown: Option<string>)

  function RunFrames(turnOpen: bool, frames: seq<Incoming>): (r: Run)
    ensures r.consumed <= |frames|
    ensures r.shutdown.None? ==> r.consumed == |frames|
    ensures r.shutdown.Some? ==> r.consumed > 0
    ensures r.shutdown.Some? ==> r.shutdown.value in {Shutdown.ClientClose, Shutdown.ClientFatal}
    decreases |frames|
  {
    if |frames| == 0 then Run([], turnOpen, 0, None)
    else
      var step := StepFrame(turnOpen, frames[0]);
      if step.shutdown.Some? then Run(step.sends, step.turnOpen, 1, step.shutdown)
      else
        var rest := RunFrames(step.turnOpen, frames[1..]);
        Run(step.sends + rest.sends, rest.turnOpen, 1 + rest.consumed, rest.shutdown)
  }

  /** Whether a frame stops the loop, and with which reason, does not depend
      on whether an utterance is open. */
  lemma StopIsStateFree(turnOpen: bool, frame: Incoming)
    ensures StepFrame(turnOpen, frame).shutdown == StepFrame(false, frame).shutdown
  {
  }

  /** A disconnect stops the loop with "client websocket close", a failed
      receive or a non-object payload with "client receive fatal error", and
      nothing else stops it. */
  lemma StopReason(frame: Incoming)
    ensures StepFrame(false, frame).shutdown == Some(Shutdown.ClientClose) <==> IsDisconnect(frame)
    ensures StepFrame(false, frame).shutdown == Some(Shutdown.ClientFatal) <==>
              frame.ReceiveFailed? || (!IsDisconnect(frame) && !IsAudio(frame) && frame.message.eventType == Some(ReceiveEvent)
                                       && frame.message.text == Some(NonObject))
  {
  }

  /** The loop stops at the first frame that triggers shutdown, with that
      frame's reason: no earlier frame would have stopped it, and a loop
      still running has met no such frame. */
  lemma {:induction false} StopsAtFirstTrigger(turnOpen: bool, frames: seq<Incoming>)
    ensures var r := RunFrames(turnOpen, frames);
            r.shutdown.Some? ==> r.shutdown == StepFrame(false, frames[r.consumed - 1]).shutdown
    ensures var r := RunFrames(turnOpen, frames);
            forall i :: 0 <= i < |frames| && (r.shutdown.None? || i < r.consumed - 1) ==>
              StepFrame(false, frames[i]).shutdown.None?
    decreases |frames|
  {
    if |frames| > 0 {
      var r := RunFrames(turnOpen, frames);
      var step := StepFrame(turnOpen, frames[0]);
      StopIsStateFree(turnOpen, frames[0]);
      if step.shutdown.None? {
        var rest := RunFrames(step.turnOpen, frames[1..]);
        assert r == Run(step.sends + rest.sends, rest.turnOpen, 1 + rest.consumed, rest.shutdown);
        StopsAtFirstTrigger(step.turnOpen, frames[1..]);
        if rest.shutdown.Some? {
          assert frames[r.consumed - 1] == frames[1..][rest.consumed - 1];
        }
        forall i | 0 < i < |frames| && (r.shutdown.None? || i < r.consumed - 1)
          ensures StepFrame(false, frames[i]).shutdown.None?
        {
          assert frames[i] == frames[1..][i - 1];
        }
      }
    }
  }

  /** The loop stops with "client websocket close" exactly when the frame it
      stopped at is a disconnect. */
  lemma ClientCloseIffDisconnect(turnOpen: bool, frames: seq<Incoming>)
    ensures var r := RunFrames(turnOpen, frames);
            r.shutdown == Some(Shutdown.ClientClose) <==> r.shutdown.Some? && IsDisconnect(frames[r.consumed - 1])
  {
    var r := RunFrames(turnOpen, frames);
    StopsAtFirstTrigger(turnOpen, frames);
    if r.shutdown.Some? {
      StopReason(frames[r.consumed - 1]);
    }
  }

  /** Once the loop has stopped, later frames are never read. */
  lemma {:induction false} StopIgnoresLaterFrames(turnOpen: bool, frames: seq<Incoming>, later: seq<Incoming>)
    requires RunFrames(turnOpen, frames).shutdown.Some?
    ensures RunFrames(turnOpen, frames + later) == RunFrames(turnOpen, frames)
    decreases |frames|
  {
    var step := StepFrame(turnOpen, frames[0]);
    assert (frames + later)[0] == frames[0];
    if step.shutdown.None? {
      assert (frames + later)[1..] == frames[1..] + later;
      StopIgnoresLaterFrames(step.turnOpen, frames[1..], later);
    }
  }

  /** The payloads of the audio sends, in order. */
  function AudioPayloads(sends: seq<Send>): seq<Bytes>
    decreases |sends|
  {
    if |sends| == 0 then []
    else (if sends[0].input.Some? then [sends[0].input.value.data] else []) + AudioPayloads(sends[1..])
  }

  lemma {:induction false} AudioPayloadsAppend(a: seq<Send>, b: seq<Send>)
    ensures AudioPayloads(a + b) == AudioPayloads(a) + AudioPayloads(b)
    decreases |a|
  {
    if |a| > 0 {
      assert (a + b)[0] == a[0];
      assert (a + b)[1..] == a[1..] + b;
      AudioPayloadsAppend(a[1..], b);
    } else {
      assert a + b == b;
    }
  }

  /** The data of the audio frames, in order. */
  function AudioFrames(frames: seq<Incoming>): seq<Bytes>
    decreases |frames|
  {
    if |frames| == 0 then []
    else (if IsAudio(frames[0]) then [frames[0].message.bytes.value] else []) + AudioFrames(frames[1..])
  }

  /** A frame forwards its own data as audio when it is an audio frame, and
      nothing otherwise. */
  lemma StepAudio(turnOpen: bool, frame: Incoming)
    ensures AudioPayloads(StepFrame(turnOpen, frame).sends)
            == (if IsAudio(frame) then [frame.message.bytes.value] else [])
  {
  }

  /** Every audio frame the loop read is forwarded, verbatim and in the order
      received, and nothing else is forwarded as audio. */
  lemma {:induction false} AudioForwardedInOrder(turnOpen: bool, frames: seq<Incoming>)
    ensures var r := RunFrames(turnOpen, frames);
            AudioPayloads(r.sends) == AudioFrames(frames[..r.consumed])
    decreases |frames|
  {
    var r := RunFrames(turnOpen, frames);
    if |frames| > 0 {
      var step := StepFrame(turnOpen, frames[0]);
      var prefix := frames[..r.consumed];
      assert prefix[0] == frames[0];
      StepAudio(turnOpen, frames[0]);
      if step.shutdown.Some? {
        assert prefix[1..] == [];
      } else {
        var rest := RunFrames(step.turnOpen, frames[1..]);
        AudioForwardedInOrder(step.turnOpen, frames[1..]);
        AudioPayloadsAppend(step.sends, rest.sends);
        assert prefix[1..] == frames[1..][..rest.consumed];
      }
    }
  }

  /** Every audio send is tagged as raw PCM and as not ending the turn. */
  predicate AudioSendsNonFinal(sends: seq<Send>) {
    forall i :: 0 <= i < |sends| && sends[i].input.Some? ==>
      sends[i].input.value.mimeType == AudioMimeType && !sends[i].endOfTurn
  }

  /** The send sequence is well bracketed: starting from `open`, an audio
      send opens (or continues) the utterance, an end-of-turn send is only
      ever made while an utterance is open and closes it, and the replay ends
      in state `close`. */
  predicate Bracketed(open: bool, sends: seq<Send>, close: bool)
    decreases |sends|
  {
    if |sends| == 0 then open == close
    else if sends[0] == EndOfTurnSend then open && Bracketed(false, sends[1..], close)
    else sends[0].input.Some? && !sends[0].endOfTurn && Bracketed(true, sends[1..], close)
  }

  lemma {:induction false} BracketedAppend(open: bool, a: seq<Send>, mid: bool, b: seq<Send>, close: bool)
    requires Bracketed(open, a, mid) && Bracketed(mid, b, close)
    ensures Bracketed(open, a + b, close)
    decreases |a|
  {
    if |a| > 0 {
      assert (a + b)[0] == a[0];
      assert (a + b)[1..] == a[1..] + b;
      if a[0] == EndOfTurnSend {
        BracketedAppend(false, a[1..], mid, b, close);
      } else {
        BracketedAppend(true, a[1..], mid, b, close);
      }
    } else {
      assert a + b == b;
    }
  }

  lemma AudioSendsNonFinalAppend(a: seq<Send>, b: seq<Send>)
    requires AudioSendsNonFinal(a) && AudioSendsNonFinal(b)
    ensures AudioSendsNonFinal(a + b)
  {
  }

  /** A single frame's sends are bracketed and non-final. */
  lemma StepIsBracketed(turnOpen: bool, frame: Incoming)
    ensures var step := StepFrame(turnOpen, frame);
            Bracketed(turnOpen, step.sends, step.turnOpen) && AudioSendsNonFinal(step.sends)
  {
  }

  /** The loop keeps at most one utterance open: its sends replay as a well
      bracketed sequence ending in the loop's own utterance flag, and all
      audio sends are non-final raw PCM. */
  lemma {:induction false} RunIsBracketed(turnOpen: bool, frames: seq<Incoming>)
    ensures var r := RunFrames(turnOpen, frames);
            Bracketed(turnOpen, r.sends, r.turnOpen) && AudioSendsNonFinal(r.sends)
    decreases |frames|
  {
    if |frames| > 0 {
      var step := StepFrame(turnOpen, frames[0]);
      StepIsBracketed(turnOpen, frames[0]);
      if step.shutdown.None? {
        var rest := RunFrames(step.turnOpen, frames[1..]);
        RunIsBracketed(step.turnOpen, frames[1..]);
        BracketedAppend(turnOpen, step.sends, step.turnOpen, rest.sends, rest.turnOpen);
        AudioSendsNonFinalAppend(step.sends, rest.sends);
      }
    }
  }

  /** Three audio frames followed by an end-of-turn message reach the
      upstream session as three non-final audio sends and one end-of-turn. */
  lemma ThreeChunksThenEndTurn(a: Bytes, b: Bytes, c: Bytes)
    ensures
      var audio := (d: Bytes) => Received(Message(Some(ReceiveEvent), Some(d), None));
      var endTurn := Received(Message(Some(ReceiveEvent), None, Some(Object(Some(EndTurn)))));
      RunFrames(false, [audio(a), audio(b), audio(c), endTurn]).sends
        == [AudioSend(a), AudioSend(b), AudioSend(c), EndOfTurnSend]
  {
    var audio := (d: Bytes) => Received(Message(Some(ReceiveEvent), Some(d), None));
    var endTurn := Received(Message(Some(ReceiveEvent), None, Some(Object(Some(EndTurn)))));
    var frames := [audio(a), audio(b), audio(c), endTurn];
    assert RunFrames(true, frames[3..]).sends == [EndOfTurnSend];
    assert RunFrames(true, frames[2..]).sends == [AudioSend(c), EndOfTurnSend];
    assert RunFrames(true, frames[1..]).sends == [AudioSend(b), AudioSend(c), EndOfTurnSend];
  }
}
