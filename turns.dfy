/**
 * The transcript and turn assembler of hooks/useMultimodalLive.ts: the
 * records the live service sends and the chat messages the hook emits, and
 * the effect of one inbound message on the current turn's buffers.
 */
module Turns {
  import opened Wrappers
  import opened Text
  import opened Playback

  /** `GroundingChunk.web`: a search citation. */
  datatype WebSource = WebSource(uri: string, title: string)
  datatype GroundingChunk = GroundingChunk(web: Option<WebSource>)

  datatype Role = User | Assistant

  /** A finalized chat turn (`ChatMessage`); `timestamp` is milliseconds from `Date.now()`. */
  datatype ChatMessage = ChatMessage(
    id: string,
    role: Role,
    text: string,
    timestamp: nat,
    groundingChunks: Option<seq<GroundingChunk>>)

  /**
   * The parts of a `LiveServerMessage` the hook reads: the transcription
   * deltas, the grounding chunks, the turn-complete flag, the decoded audio
   * fragment of `modelTurn.parts[0].inlineData` (its duration; `None` when
   * the message carries no audio data) and the interrupted flag.
   */
  datatype ServerMessage = ServerMessage(
    outputTx: Option<string>,
    inputTx: Option<string>,
    groundingChunks: Option<seq<GroundingChunk>>,
    turnComplete: bool,
    audio: Option<Seconds>,
    interrupted: bool)

  /** The current turn's transcript buffers and citation list. */
  datatype TurnBuffer = TurnBuffer(input: string, output: string, chunks: seq<GroundingChunk>)

  const EmptyTurn := TurnBuffer("", "", [])

  /** The text of a transcription delta; an absent one contributes nothing. */
  function DeltaText(delta: Option<string>): string {
    if delta.Some? then delta.value else ""
  }

  /** The citations a message carries; an absent list contributes nothing. */
  function ChunksOf(m: ServerMessage): seq<GroundingChunk> {
    if m.groundingChunks.Some? then m.groundingChunks.value else []
  }

  /**
   * The buffers after the first two steps of a message: the deltas and the
   * chunks are appended, never replaced.
   */
  function WithDeltas(b: TurnBuffer, m: ServerMessage): (r: TurnBuffer)
    ensures b.input <= r.input && b.output <= r.output && b.chunks <= r.chunks
    ensures r.input[|b.input|..] == DeltaText(m.inputTx)
    ensures r.output[|b.output|..] == DeltaText(m.outputTx)
    ensures r.chunks[|b.chunks|..] == ChunksOf(m)
  {
    TurnBuffer(b.input + DeltaText(m.inputTx), b.output + DeltaText(m.outputTx), b.chunks + ChunksOf(m))
  }

  /** The user message a turn or a typed text becomes: id `user-<t>`, timestamp `t`. */
  function UserMessage(text: string, t: nat): ChatMessage {
    ChatMessage("user-" + NatToString(t), User, text, t, None)
  }

  /** The assistant message: id `ai-<t>`, timestamp `t`, citations only when there are some. */
  function AssistantMessage(text: string, chunks: seq<GroundingChunk>, t: nat): ChatMessage {
    ChatMessage("ai-" + NatToString(t), Assistant, text, t,
                if |chunks| > 0 then Some(chunks) else None)
  }

  /**
   * The messages a turn-complete signal emits from the snapshot `b` at time
   * `t`: a user message when the trimmed input is non-empty, then an
   * assistant message when the trimmed output is non-empty; nothing when both
   * are empty.
   */
  function Emitted(b: TurnBuffer, t: nat): (r: seq<ChatMessage>)
    ensures |r| == (if Trim(b.input) != "" then 1 else 0) + (if Trim(b.output) != "" then 1 else 0)
    ensures r == [] <==> AllWhitespace(b.input) && AllWhitespace(b.output)
    ensures Trim(b.input) != "" ==> r[0] == UserMessage(Trim(b.input), t)
    ensures Trim(b.output) != "" ==> r[|r| - 1] == AssistantMessage(Trim(b.output), b.chunks, t + 1)
    ensures forall i :: 0 <= i < |r| ==> r[i].text != ""
  {
    var userText := Trim(b.input);
    var aiText := Trim(b.output);
    (if userText != "" then [UserMessage(userText, t)] else [])
    + (if aiText != "" then [AssistantMessage(aiText, b.chunks, t + 1)] else [])
  }

  /**
   * The turn buffers after a whole message: deltas and chunks first, then a
   * turn-complete signal empties all three, then an interruption empties the
   * output text and the citations but keeps the input text.
   */
  function Receive(b: TurnBuffer, m: ServerMessage): (r: TurnBuffer)
    ensures m.turnComplete ==> r == EmptyTurn
    ensures !m.turnComplete ==> r.input == b.input + DeltaText(m.inputTx)
    ensures !m.turnComplete && !m.interrupted ==> r == WithDeltas(b, m)
    ensures m.interrupted ==> r.output == "" && r.chunks == []
  {
    var d := WithDeltas(b, m);
    var c := if m.turnComplete then EmptyTurn else d;
    if m.interrupted then c.(output := "", chunks := []) else c
  }

  /** The messages a message emits: those of its turn-complete signal, if any. */
  function EmittedBy(b: TurnBuffer, m: ServerMessage, t: nat): seq<ChatMessage> {
    if m.turnComplete then Emitted(WithDeltas(b, m), t) else []
  }

  /**
   * Emission order and timestamps: a user message always precedes the
   * assistant message of the same turn, its timestamp is strictly smaller,
   * and their ids differ.
   */
  lemma EmittedOrdered(b: TurnBuffer, t: nat)
    ensures var r := Emitted(b, t);
      forall i, j :: 0 <= i < j < |r| ==>
        && r[i].role == User && r[j].role == Assistant
        && r[i].timestamp < r[j].timestamp
        && r[i].id != r[j].id
  {
    var r := Emitted(b, t);
    if |r| == 2 {
      assert r[0].id[0] == 'u' && r[1].id[0] == 'a';
    }
  }

  /** Citations reach the assistant message exactly when the snapshot holds some. */
  lemma CitationsAttached(b: TurnBuffer, t: nat)
    requires Trim(b.output) != ""
    ensures var r := Emitted(b, t);
      r[|r| - 1].groundingChunks == (if b.chunks == [] then None else Some(b.chunks))
  {
  }

  /** Concatenation of the output deltas of a sequence of messages. */
  function OutputDeltas(ms: seq<ServerMessage>): string
    decreases |ms|
  {
    if ms == [] then "" else DeltaText(ms[0].outputTx) + OutputDeltas(ms[1..])
  }

  /** Concatenation of the input deltas of a sequence of messages. */
  function InputDeltas(ms: seq<ServerMessage>): string
    decreases |ms|
  {
    if ms == [] then "" else DeltaText(ms[0].inputTx) + InputDeltas(ms[1..])
  }

  /** Concatenation of the citation lists of a sequence of messages. */
  function AllChunks(ms: seq<ServerMessage>): seq<GroundingChunk>
    decreases |ms|
  {
    if ms == [] then [] else ChunksOf(ms[0]) + AllChunks(ms[1..])
  }

  /** The buffers after receiving `ms` in order. */
  function ReceiveAll(b: TurnBuffer, ms: seq<ServerMessage>): TurnBuffer
    decreases |ms|
  {
    if ms == [] then b else ReceiveAll(Receive(b, ms[0]), ms[1..])
  }

  /** No message of `ms` completes the turn or interrupts it. */
  predicate OpenTurn(ms: seq<ServerMessage>) {
    forall i :: 0 <= i < |ms| ==> !ms[i].turnComplete && !ms[i].interrupted
  }

  /**
   * Within an open turn the buffers are the old ones followed by the deltas
   * and citations in arrival order.
   */
  lemma {:induction false} DeltasInArrivalOrder(b: TurnBuffer, ms: seq<ServerMessage>)
    requires OpenTurn(ms)
    ensures ReceiveAll(b, ms) == TurnBuffer(b.input + InputDeltas(ms), b.output + OutputDeltas(ms), b.chunks + AllChunks(ms))
    decreases |ms|
  {
    if ms == [] {
      assert b.input + InputDeltas(ms) == b.input;
      assert b.output + OutputDeltas(ms) == b.output;
      assert b.chunks + AllChunks(ms) == b.chunks;
    } else {
      var m := ms[0];
      var rest := ms[1..];
      assert !m.turnComplete && !m.interrupted;
      assert OpenTurn(rest) by {
        forall i | 0 <= i < |rest| ensures !rest[i].turnComplete && !rest[i].interrupted {
          assert rest[i] == ms[i + 1];
        }
      }
      var d := TurnBuffer(b.input + DeltaText(m.inputTx), b.output + DeltaText(m.outputTx), b.chunks + ChunksOf(m));
      assert Receive(b, m) == d;
      assert ReceiveAll(b, ms) == ReceiveAll(d, rest);
      DeltasInArrivalOrder(d, rest);
      DeltaConcat(b.input, DeltaText(m.inputTx), InputDeltas(rest));
      DeltaConcat(b.output, DeltaText(m.outputTx), OutputDeltas(rest));
      DeltaConcat(b.chunks, ChunksOf(m), AllChunks(rest));
    }
  }

  lemma DeltaConcat<T>(a: seq<T>, x: seq<T>, y: seq<T>)
    ensures a + (x + y) == (a + x) + y
  {
  }

  /**
   * An interruption discards the partial answer: whatever output and
   * citations preceded it, the next turn-complete with no new output emits no
   * assistant message.
   */
  lemma InterruptionDiscardsOutput(b: TurnBuffer, m: ServerMessage, t: nat)
    requires m.interrupted && !m.turnComplete
    ensures var r := Receive(b, m);
      r.output == "" && r.chunks == [] && r.input == b.input + DeltaText(m.inputTx)
      && forall i :: 0 <= i < |Emitted(r, t)| ==> Emitted(r, t)[i].role == User
  {
    var r := Receive(b, m);
    assert Trim(r.output) == "";
  }

  /**
   * A message that both completes the turn and interrupts it is completed
   * first: the partial answer, with its citations, is still emitted, and
   * the interruption then finds the buffers already empty.
   */
  lemma CompletionBeforeInterruption(b: TurnBuffer, m: ServerMessage, t: nat)
    requires m.turnComplete && m.interrupted
    ensures Receive(b, m) == EmptyTurn
    ensures var d := WithDeltas(b, m);
      && EmittedBy(b, m, t) == Emitted(d, t)
      && (Trim(d.output) != "" ==>
            EmittedBy(b, m, t)[|EmittedBy(b, m, t)| - 1] == AssistantMessage(Trim(d.output), d.chunks, t + 1))
  {
  }

  /** The partial answer "partial" survives a final message that completes and interrupts at once. */
  lemma InterruptedAtCompletion(t: nat)
    ensures
      var m := ServerMessage(None, None, None, true, None, true);
      EmittedBy(TurnBuffer("", "partial", []), m, t) == [AssistantMessage("partial", [], t + 1)]
  {
    var m := ServerMessage(None, None, None, true, None, true);
    var b := TurnBuffer("", "partial", []);
    assert WithDeltas(b, m) == b;
    TrimUntrimmed("partial");
    assert Trim("") == "";
    var r := Emitted(b, t);
    assert |r| == 1;
    assert r[0] == AssistantMessage("partial", [], t + 1);
  }

  /**
   * The example turn: output deltas "Hel" and "lo" followed by a bare
   * turn-complete on an empty turn emit one assistant message "Hello".
   */
  lemma HelloTurn(t: nat)
    ensures
      var m1 := ServerMessage(Some("Hel"), None, None, false, None, false);
      var m2 := m1.(outputTx := Some("lo"));
      var done := m1.(outputTx := None, turnComplete := true);
      var b := ReceiveAll(EmptyTurn, [m1, m2]);
      EmittedBy(b, done, t) == [AssistantMessage("Hello", [], t + 1)]
      && Receive(b, done) == EmptyTurn
  {
    var m1 := ServerMessage(Some("Hel"), None, None, false, None, false);
    var m2 := m1.(outputTx := Some("lo"));
    var done := m1.(outputTx := None, turnComplete := true);
    HelloBuffer(m1, m2);
    var b := TurnBuffer("", "Hello", []);
    assert WithDeltas(b, done) == b;
    TrimUntrimmed("Hello");
    assert Trim("") == "";
    var r := Emitted(b, t);
    assert |r| == 1;
    assert r[0] == AssistantMessage("Hello", [], t + 1);
  }

  lemma HelloBuffer(m1: ServerMessage, m2: ServerMessage)
    requires m1 == ServerMessage(Some("Hel"), None, None, false, None, false)
    requires m2 == m1.(outputTx := Some("lo"))
    ensures ReceiveAll(EmptyTurn, [m1, m2]) == TurnBuffer("", "Hello", [])
  {
    DeltasInArrivalOrder(EmptyTurn, [m1, m2]);
    assert [m1, m2][1..] == [m2] && [m2][1..] == [];
    assert OutputDeltas([m2]) == "lo" + OutputDeltas([]);
    assert OutputDeltas([m1, m2]) == "Hel" + OutputDeltas([m2]);
    assert InputDeltas([m2]) == "" + InputDeltas([]);
    assert InputDeltas([m1, m2]) == "" + InputDeltas([m2]);
    assert AllChunks([m2]) == [] + AllChunks([]);
    assert AllChunks([m1, m2]) == [] + AllChunks([m2]);
  }
}
