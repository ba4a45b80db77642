/**
 * The live duplex session of hooks/useMultimodalLive.ts as one object: its
 * fields are the hook's state and refs, and each callback or entry point of
 * the hook is a method. Every event runs to completion before the next.
 */
module LiveSession {
  import opened Wrappers
  import opened Text
  import opened Playback
  import opened Turns

  datatype ConnectionState = Disconnected | Connecting | Connected | Error

  /** What the session sends over the open channel, in send order. */
  datatype Outbound =
    | MicrophoneFrame                               // one captured block, `sendRealtimeInput({media})`
    | ClientTurn(text: string)                      // `session.send({clientContent: ..., turnComplete: true})`
    | RealtimeMedia(mimeType: string, data: string) // `sendRealtimeInput({media: {mimeType, data}})`
    | CloseChannel                                  // `session.close()`

  /** A playback unit that was started: its id and the device time it starts at. */
  datatype Scheduled = Scheduled(source: nat, start: Seconds)

  class Session {
    var connectionState: ConnectionState
    var messages: seq<ChatMessage>

    // transcription and grounding refs of the current turn
    var inputTranscription: string
    var outputTranscription: string
    var groundingChunks: seq<GroundingChunk>

    // playback scheduling refs; a playback source is identified by a number
    // handed out from `nextSourceId`, one per fragment, never reused
    var nextStartTime: Seconds
    var activeSources: set<nat>
    var nextSourceId: nat

    // whether each nullable ref currently holds something
    var hasSession: bool        // sessionPromiseRef
    var hasStream: bool         // streamRef (microphone)
    var hasInputContext: bool   // inputAudioContextRef
    var hasOutputContext: bool  // outputAudioContextRef
    var hasOutputNode: bool     // outputNodeRef
    var hasProcessor: bool      // processorRef
    var hasSourceNode: bool     // sourceRef

    var outbox: seq<Outbound>

    /** The current turn's buffers. */
    function Buffer(): TurnBuffer
      reads this
    {
      TurnBuffer(inputTranscription, outputTranscription, groundingChunks)
    }

    /** No capture stream, audio context, graph node or playback unit is held and the cursor is at 0. */
    predicate Released()
      reads this
    {
      && activeSources == {} && nextStartTime == 0.0
      && !hasStream && !hasInputContext && !hasOutputContext
      && !hasProcessor && !hasSourceNode
    }

    /** Every field but the message list and the outbox is as it was. */
    twostate predicate OnlyTrafficChanged()
      reads this
    {
      && connectionState == old(connectionState) && Buffer() == old(Buffer())
      && nextStartTime == old(nextStartTime) && activeSources == old(activeSources)
      && nextSourceId == old(nextSourceId)
      && hasSession == old(hasSession) && hasStream == old(hasStream)
      && hasInputContext == old(hasInputContext) && hasOutputContext == old(hasOutputContext)
      && hasOutputNode == old(hasOutputNode) && hasProcessor == old(hasProcessor)
      && hasSourceNode == old(hasSourceNode)
    }

    /**
     * Every active playback id was handed out, and a session that is not
     * connecting or connected holds no audio resources at all.
     */
    ghost predicate Valid()
      reads this
    {
      && (forall id :: id in activeSources ==> id < nextSourceId)
      && (connectionState == Disconnected || connectionState == Error ==> Released())
    }

    constructor ()
      ensures Valid()
      ensures connectionState == Disconnected && messages == [] && Buffer() == EmptyTurn
      ensures Released() && !hasSession && !hasOutputNode && outbox == [] && nextSourceId == 0
    {
      connectionState := Disconnected;
      messages := [];
      inputTranscription, outputTranscription, groundingChunks := "", "", [];
      nextStartTime, activeSources, nextSourceId := 0.0, {}, 0;
      hasSession, hasStream, hasInputContext, hasOutputContext := false, false, false, false;
      hasOutputNode, hasProcessor, hasSourceNode := false, false, false;
      outbox := [];
    }

    /**
     * `cleanupAudio`: stops the microphone, detaches the capture graph, stops
     * and forgets every playback unit, resets the cursor and closes both audio
     * contexts. It leaves the session ref, the output node, the turn buffers
     * and the messages alone.
     */
    method CleanupAudio()
      modifies this`hasStream, this`hasProcessor, this`hasSourceNode, this`activeSources,
               this`nextStartTime, this`hasInputContext, this`hasOutputContext
      ensures Released()
    {
      hasStream := false;
      hasProcessor := false;
      hasSourceNode := false;
      activeSources := {};
      nextStartTime := 0.0;
      hasInputContext := false;
      hasOutputContext := false;
    }

    /**
     * `connect`: state `connecting`, both audio contexts and the output node
     * are created, then either the microphone is granted (stream kept,
     * channel requested) or the attempt fails, landing in `error` with every
     * audio resource released.
     */
    method Connect(micGranted: bool)
      requires Valid()
      modifies this
      ensures Valid()
      ensures micGranted ==> && connectionState == Connecting && hasSession && hasStream
                             && hasInputContext && hasOutputContext && hasOutputNode
                             && activeSources == old(activeSources) && nextStartTime == old(nextStartTime)
                             && hasProcessor == old(hasProcessor) && hasSourceNode == old(hasSourceNode)
      ensures !micGranted ==> connectionState == Error && Released() && hasOutputNode
                              && hasSession == old(hasSession)
      ensures messages == old(messages) && Buffer() == old(Buffer())
      ensures outbox == old(outbox) && nextSourceId == old(nextSourceId)
    {
      connectionState := Connecting;
      hasInputContext := true;
      hasOutputContext := true;
      hasOutputNode := true;
      if micGranted {
        hasStream := true;
        hasSession := true;
      } else {
        connectionState := Error;
        CleanupAudio();
      }
    }

    /** `onopen`: state `connected`; with a context and a stream the capture graph is built. */
    method OnOpen()
      requires Valid()
      modifies this`connectionState, this`hasSourceNode, this`hasProcessor
      ensures Valid()
      ensures connectionState == Connected
      ensures hasSourceNode == (old(hasSourceNode) || (hasInputContext && hasStream))
      ensures hasProcessor == (old(hasProcessor) || (hasInputContext && hasStream))
    {
      connectionState := Connected;
      if hasInputContext && hasStream {
        hasSourceNode := true;
        hasProcessor := true;
      }
    }

    /**
     * `processor.onaudioprocess`: a captured block is sent at once when the
     * channel exists, and dropped otherwise. The loudness metric is not
     * modelled.
     */
    method OnAudioProcess()
      requires hasProcessor
      modifies this`outbox
      ensures outbox == old(outbox) + (if hasSession then [MicrophoneFrame] else [])
    {
      if hasSession {
        outbox := outbox + [MicrophoneFrame];
      }
    }

    /** Step 1 and 2 of `onmessage`: non-empty deltas are appended, chunk lists are pushed. */
    method AppendDeltas(m: ServerMessage)
      modifies this`inputTranscription, this`outputTranscription, this`groundingChunks
      ensures Buffer() == WithDeltas(old(Buffer()), m)
    {
      if m.outputTx.Some? && m.outputTx.value != "" {
        outputTranscription := outputTranscription + m.outputTx.value;
      }
      if m.inputTx.Some? && m.inputTx.value != "" {
        inputTranscription := inputTranscription + m.inputTx.value;
      }
      if m.groundingChunks.Some? {
        groundingChunks := groundingChunks + m.groundingChunks.value;
      }
    }

    /**
     * Step 3 of `onmessage`, on `turnComplete`: the trimmed buffer texts and
     * a copy of the chunk list become zero, one or two messages, and the three
     * buffers are emptied.
     */
    method CompleteTurn(now: nat)
      modifies this`inputTranscription, this`outputTranscription, this`groundingChunks, this`messages
      ensures messages == old(messages) + Emitted(old(Buffer()), now)
      ensures Buffer() == EmptyTurn
    {
      var timestamp := now;
      var userText := Trim(inputTranscription);
      var aiText := Trim(outputTranscription);
      var chunks := groundingChunks;
      ghost var emitted := Emitted(Buffer(), now);
      if userText != "" || aiText != "" {
        var newMessages := messages;
        if userText != "" {
          newMessages := newMessages + [UserMessage(userText, timestamp)];
        }
        if aiText != "" {
          newMessages := newMessages + [AssistantMessage(aiText, chunks, timestamp + 1)];
        }
        messages := newMessages;
      }
      assert messages == old(messages) + emitted;
      inputTranscription := "";
      outputTranscription := "";
      groundingChunks := [];
    }

    /**
     * Step 4 of `onmessage`: with an output context and node, a fragment of
     * length `duration` gets a fresh playback id, starts at
     * `max(nextStartTime, currentTime)` and moves the cursor to its end.
     */
    method ScheduleFragment(duration: Seconds, currentTime: Seconds) returns (scheduled: Option<Scheduled>)
      requires Valid()
      modifies this`nextStartTime, this`activeSources, this`nextSourceId
      ensures Valid()
      ensures var plays := hasOutputContext && hasOutputNode;
        && scheduled == (if plays then Some(Scheduled(old(nextSourceId), StartTime(old(nextStartTime), currentTime)))
                         else None)
        && (plays ==> && nextSourceId == old(nextSourceId) + 1
                      && activeSources == old(activeSources) + {old(nextSourceId)}
                      && nextStartTime == StartTime(old(nextStartTime), currentTime) + duration)
        && (!plays ==> unchanged(this))
    {
      scheduled := None;
      if hasOutputContext && hasOutputNode {
        nextStartTime := StartTime(nextStartTime, currentTime);
        var source := nextSourceId;
        nextSourceId := nextSourceId + 1;
        activeSources := activeSources + {source};
        scheduled := Some(Scheduled(source, nextStartTime));
        nextStartTime := nextStartTime + duration;
      }
    }

    /**
     * Step 5 of `onmessage`, on `interrupted`: every playback unit is stopped
     * and forgotten, the cursor goes back to 0, and the partial answer and its
     * citations are discarded; the input text stays.
     */
    method Interrupt()
      requires Valid()
      modifies this`activeSources, this`nextStartTime, this`outputTranscription, this`groundingChunks
      ensures Valid()
      ensures activeSources == {} && nextStartTime == 0.0
      ensures Buffer() == old(Buffer()).(output := "", chunks := [])
    {
      activeSources := {};
      nextStartTime := 0.0;
      outputTranscription := "";
      groundingChunks := [];
    }

    /**
     * `onmessage`, its five steps in order: transcription deltas, grounding
     * chunks, turn completion, audio scheduling, interruption. `now` is
     * `Date.now()` and `currentTime` the output context's clock.
     */
    method OnMessage(m: ServerMessage, now: nat, currentTime: Seconds) returns (scheduled: Option<Scheduled>)
      requires Valid()
      modifies this`inputTranscription, this`outputTranscription, this`groundingChunks,
               this`messages, this`nextStartTime, this`activeSources, this`nextSourceId
      ensures Valid()
      ensures messages == old(messages) + EmittedBy(old(Buffer()), m, now)
      ensures Buffer() == Receive(old(Buffer()), m)
      ensures var plays := m.audio.Some? && hasOutputContext && hasOutputNode;
        && scheduled == (if plays then Some(Scheduled(old(nextSourceId), StartTime(old(nextStartTime), currentTime)))
                         else None)
        && nextSourceId == old(nextSourceId) + (if plays then 1 else 0)
        && (m.interrupted ==> activeSources == {} && nextStartTime == 0.0)
        && (!m.interrupted && plays ==>
              && activeSources == old(activeSources) + {old(nextSourceId)}
              && nextStartTime == StartTime(old(nextStartTime), currentTime) + m.audio.value)
        && (!m.interrupted && !plays ==>
              activeSources == old(activeSources) && nextStartTime == old(nextStartTime))
    {
      AppendDeltas(m);
      if m.turnComplete {
        CompleteTurn(now);
      }
      scheduled := None;
      if m.audio.Some? {
        scheduled := ScheduleFragment(m.audio.value, currentTime);
      }
      if m.interrupted {
        Interrupt();
      }
    }

    /** A playback unit's `ended` event removes that unit, and only it. */
    method OnSourceEnded(source: nat)
      requires Valid()
      modifies this`activeSources
      ensures Valid()
      ensures activeSources == old(activeSources) - {source}
    {
      activeSources := activeSources - {source};
    }

    /** `onclose`: state `disconnected` and every audio resource released. */
    method OnClose()
      requires Valid()
      modifies this`connectionState, this`hasStream, this`hasProcessor, this`hasSourceNode,
               this`activeSources, this`nextStartTime, this`hasInputContext, this`hasOutputContext
      ensures Valid()
      ensures connectionState == Disconnected && Released()
    {
      connectionState := Disconnected;
      CleanupAudio();
    }

    /** `onerror`: state `error` and every audio resource released. */
    method OnError()
      requires Valid()
      modifies this`connectionState, this`hasStream, this`hasProcessor, this`hasSourceNode,
               this`activeSources, this`nextStartTime, this`hasInputContext, this`hasOutputContext
      ensures Valid()
      ensures connectionState == Error && Released()
    {
      connectionState := Error;
      CleanupAudio();
    }

    /**
     * `disconnect`: closes and forgets the channel if there is one, releases
     * all audio and lands in `disconnected`. On a session that is already
     * disconnected with no channel it changes nothing, so a second call right
     * after a first is a no-op.
     */
    method Disconnect()
      requires Valid()
      modifies this`hasSession, this`outbox, this`connectionState, this`hasStream, this`hasProcessor,
               this`hasSourceNode, this`activeSources, this`nextStartTime, this`hasInputContext,
               this`hasOutputContext
      ensures Valid()
      ensures connectionState == Disconnected && !hasSession && Released()
      ensures outbox == old(outbox) + (if old(hasSession) then [CloseChannel] else [])
      ensures old(connectionState == Disconnected && !hasSession) ==> unchanged(this)
    {
      if hasSession {
        outbox := outbox + [CloseChannel];
        hasSession := false;
      }
      CleanupAudio();
      connectionState := Disconnected;
    }

    /**
     * `sendTextMessage`: without a channel nothing happens; otherwise exactly
     * one user message is appended and the text is sent as a client turn.
     */
    method SendTextMessage(text: string, now: nat)
      modifies this`messages, this`outbox
      ensures messages == old(messages) + (if hasSession then [UserMessage(text, now)] else [])
      ensures outbox == old(outbox) + (if hasSession then [ClientTurn(text)] else [])
    {
      if !hasSession {
        return;
      }
      messages := messages + [UserMessage(text, now)];
      outbox := outbox + [ClientTurn(text)];
    }

    /** `sendHiddenMessage`: the text is sent as a client turn; `messages` is never touched. */
    method SendHiddenMessage(text: string)
      modifies this`outbox
      ensures outbox == old(outbox) + (if hasSession then [ClientTurn(text)] else [])
    {
      if !hasSession {
        return;
      }
      outbox := outbox + [ClientTurn(text)];
    }

    /** `sendRealtimeInput`: a one-shot media payload is sent when there is a channel. */
    method SendRealtimeInput(data: string, mimeType: string)
      modifies this`outbox
      ensures outbox == old(outbox) + (if hasSession then [RealtimeMedia(mimeType, data)] else [])
    {
      if hasSession {
        outbox := outbox + [RealtimeMedia(mimeType, data)];
      }
    }
  }

}
