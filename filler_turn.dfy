/**
 * The speculative "silence filler" turn of the pre-response agent: when the user finishes a
 * turn, a small fast model is asked for a short acknowledgment on a bounded copy of the
 * conversation; its chunks are spoken as they arrive while they are accumulated, and the
 * accumulated text is committed to the conversation as one assistant message.
 */
module FillerTurn {
  import opened Wrappers

  /** Speaker of a chat message. System messages are the instructions of a context. */
  datatype Role = System | User | Assistant

  /** One item of a chat context: a message, or a record of a tool call or its output. */
  datatype ChatItem =
    | Message(role: Role, content: seq<string>, interrupted: bool)
    | FunctionCall(name: string, arguments: string)
    | FunctionCallOutput(name: string, output: string)

  predicate IsInstruction(item: ChatItem) {
    item.Message? && item.role == System
  }

  predicate IsFunctionCallRecord(item: ChatItem) {
    item.FunctionCall? || item.FunctionCallOutput?
  }

  /** Whether a copy of a context made with the two exclusion flags keeps `item`. */
  predicate Kept(item: ChatItem, excludeInstructions: bool, excludeFunctionCall: bool) {
    !(excludeInstructions && IsInstruction(item)) && !(excludeFunctionCall && IsFunctionCallRecord(item))
  }

  /** The items a copy keeps: exactly the kept ones, in their original order. */
  function Filtered(items: seq<ChatItem>, excludeInstructions: bool, excludeFunctionCall: bool): (r: seq<ChatItem>)
    ensures |r| <= |items|
    ensures forall x :: x in r <==> x in items && Kept(x, excludeInstructions, excludeFunctionCall)
  {
    if items == [] then []
    else
      var rest := Filtered(items[1..], excludeInstructions, excludeFunctionCall);
      assert forall x :: x in items <==> x == items[0] || x in items[1..];
      if Kept(items[0], excludeInstructions, excludeFunctionCall) then [items[0]] + rest else rest
  }

  /** Filtering distributes over concatenation, so a copy keeps the relative order of items. */
  lemma {:induction false} FilteredConcat(a: seq<ChatItem>, b: seq<ChatItem>, excludeInstructions: bool, excludeFunctionCall: bool)
    ensures Filtered(a + b, excludeInstructions, excludeFunctionCall)
         == Filtered(a, excludeInstructions, excludeFunctionCall) + Filtered(b, excludeInstructions, excludeFunctionCall)
  {
    if a != [] {
      assert (a + b)[1..] == a[1..] + b;
      FilteredConcat(a[1..], b, excludeInstructions, excludeFunctionCall);
    } else {
      assert a + b == b;
    }
  }

  /** The most recent `maxItems` items (all of them when there are no more than that). */
  function MostRecent(items: seq<ChatItem>, maxItems: nat): seq<ChatItem> {
    if |items| <= maxItems then items else items[|items| - maxItems..]
  }

  /** The bound on prior items in the fast model's context. */
  const MaxItems: nat := 3

  /** The fixed system prompt of the fast model. */
  const FillerPrompt: ChatItem := Message(System, [
    "Generate a very short instant response to the user's message with 5 to 10 words.",
    "Do not answer the questions directly. Examples: OK, Hm..., let me think about that, "
      + "wait a moment, that's a good question, etc."
  ], false)

  /**
   * The context given to the fast model: the prompt first, the new message last, and between
   * them the most recent (at most three) items of the turn context that are neither
   * instructions nor function-call records, in their original order.
   */
  function SpeculativeItems(turn: seq<ChatItem>, prompt: ChatItem, newMessage: ChatItem): (r: seq<ChatItem>)
    ensures 2 <= |r| <= MaxItems + 2
    ensures r[0] == prompt && r[|r| - 1] == newMessage
    ensures forall i :: 1 <= i < |r| - 1 ==> r[i] in turn && !IsInstruction(r[i]) && !IsFunctionCallRecord(r[i])
    ensures var kept := Filtered(turn, true, true);
      && |r| - 2 == (if |kept| < MaxItems then |kept| else MaxItems)
      && r[1..|r| - 1] == kept[|kept| - (|r| - 2)..]
  {
    var kept := Filtered(turn, true, true);
    var middle := MostRecent(kept, MaxItems);
    var r := [prompt] + middle + [newMessage];
    assert r[1..|r| - 1] == middle;
    assert forall i :: 1 <= i < |r| - 1 ==> r[i] == middle[i - 1] && middle[i - 1] in kept;
    r
  }

  /** In-order concatenation of text chunks. */
  function Concat(chunks: seq<string>): string {
    if chunks == [] then "" else Concat(chunks[..|chunks| - 1]) + chunks[|chunks| - 1]
  }

  lemma {:induction false} ConcatSplit(a: seq<string>, b: seq<string>)
    ensures Concat(a + b) == Concat(a) + Concat(b)
  {
    if b == [] {
      assert a + b == a;
    } else {
      assert (a + b)[..|a + b| - 1] == a + b[..|b| - 1];
      ConcatSplit(a, b[..|b| - 1]);
    }
  }

  /** Where chunk `i` starts in the concatenation. */
  function Offset(chunks: seq<string>, i: nat): nat
    requires i <= |chunks|
  {
    |Concat(chunks[..i])|
  }

  /** Every chunk occurs unaltered in the concatenation, at its own offset, in stream order. */
  lemma ChunkInPlace(chunks: seq<string>, i: nat)
    requires i < |chunks|
    ensures Offset(chunks, i) + |chunks[i]| == Offset(chunks, i + 1) <= |Concat(chunks)|
    ensures Concat(chunks)[Offset(chunks, i)..Offset(chunks, i + 1)] == chunks[i]
  {
    assert chunks[..i + 1] == chunks[..i] + [chunks[i]];
    ConcatSplit(chunks[..i], [chunks[i]]);
    assert Concat([chunks[i]]) == chunks[i] by {
      assert [chunks[i]][..0] == [];
    }
    assert chunks == chunks[..i + 1] + chunks[i + 1..];
    ConcatSplit(chunks[..i + 1], chunks[i + 1..]);
  }

  /** A chat context; its items list is updated in place. */
  class ChatContext {
    var items: seq<ChatItem>

    constructor (items: seq<ChatItem>)
      ensures this.items == items
    {
      this.items := items;
    }

    /** A new context holding the items a copy with these exclusion flags keeps. */
    method Copy(excludeInstructions: bool, excludeFunctionCall: bool) returns (c: ChatContext)
      ensures fresh(c) && c.items == Filtered(items, excludeInstructions, excludeFunctionCall)
    {
      c := new ChatContext(Filtered(items, excludeInstructions, excludeFunctionCall));
    }

    /** Keeps only the most recent `maxItems` items. */
    method Truncate(maxItems: nat)
      modifies this
      ensures items == MostRecent(old(items), maxItems)
    {
      if |items| > maxItems {
        items := items[|items| - maxItems..];
      }
    }

    /** Python's `list.insert`: an index past the end appends. */
    method InsertItem(index: nat, item: ChatItem)
      modifies this
      ensures var k := if index < |old(items)| then index else |old(items)|;
        items == old(items)[..k] + [item] + old(items)[k..]
    {
      var k := if index < |items| then index else |items|;
      items := items[..k] + [item] + items[k..];
    }

    method AppendItem(item: ChatItem)
      modifies this
      ensures items == old(items) + [item]
    {
      items := items + [item];
    }

    /** Appends a message whose text content is the single part `content`. */
    method AddMessage(role: Role, content: string, interrupted: bool)
      modifies this
      ensures items == old(items) + [Message(role, [content], interrupted)]
    {
      items := items + [Message(role, [content], interrupted)];
    }
  }

  /** The speech output of the session: what has been handed to it to speak, in order. */
  class SpeechOutput {
    var played: seq<string>

    constructor ()
      ensures played == []
    {
      played := [];
    }

    method Play(chunk: string)
      modifies this
      ensures played == old(played) + [chunk]
    {
      played := played + [chunk];
    }
  }

  /** A write-once cell for the accumulated filler text. */
  class FillerFuture {
    var result: Option<string>

    constructor ()
      ensures result == None
    {
      result := None;
    }

    /** Resolving a future twice is an error, so it may only be set while unresolved. */
    method SetResult(value: string)
      requires result == None
      modifies this
      ensures result == Some(value)
    {
      result := Some(value);
    }
  }

  /**
   * The filler generator as consumed by the speech output: each chunk of `stream` is added to
   * the running text and then passed on unaltered; when the stream ends, the future is
   * resolved with the whole text.
   */
  method FastLlmReply(stream: seq<string>, fut: FillerFuture, speech: SpeechOutput)
    requires fut.result == None
    modifies fut, speech
    ensures speech.played == old(speech.played) + stream
    ensures fut.result == Some(Concat(stream))
  {
    var fillerResponse := "";
    var i := 0;
    while i < |stream|
      invariant 0 <= i <= |stream|
      invariant fillerResponse == Concat(stream[..i])
      invariant speech.played == old(speech.played) + stream[..i]
      invariant fut.result == None
    {
      assert stream[..i + 1][..i] == stream[..i];
      fillerResponse := fillerResponse + stream[i];
      speech.Play(stream[i]);
      i := i + 1;
    }
    assert stream[..i] == stream;
    fut.SetResult(fillerResponse);
  }

  class PreResponseAgent {
    const fastLlmPrompt: ChatItem

    constructor ()
      ensures fastLlmPrompt == FillerPrompt
    {
      fastLlmPrompt := FillerPrompt;
    }

    /**
     * Handles a completed user turn. `fastLlm` is the fast model: the chunks it streams for a
     * given context. Returns the context the fast model was given.
     */
    method OnUserTurnCompleted(turnCtx: ChatContext, newMessage: ChatItem,
                               fastLlm: seq<ChatItem> -> seq<string>, speech: SpeechOutput)
      returns (fastItems: seq<ChatItem>)
      modifies turnCtx, speech
      ensures fastItems == SpeculativeItems(old(turnCtx.items), fastLlmPrompt, newMessage)
      ensures speech.played == old(speech.played) + fastLlm(fastItems)
      ensures turnCtx.items == old(turnCtx.items) + [Message(Assistant, [Concat(fastLlm(fastItems))], false)]
    {
      var fastLlmCtx := turnCtx.Copy(true, true);
      fastLlmCtx.Truncate(MaxItems);
      fastLlmCtx.InsertItem(0, fastLlmPrompt);
      fastLlmCtx.AppendItem(newMessage);
      fastItems := fastLlmCtx.items;
      assert fastItems == [fastLlmPrompt] + MostRecent(Filtered(old(turnCtx.items), true, true), MaxItems) + [newMessage];

      var fastLlmFut := new FillerFuture();
      FastLlmReply(fastLlm(fastItems), fastLlmFut, speech);

      var fillerResponse := fastLlmFut.result.value;
      turnCtx.AddMessage(Assistant, fillerResponse, false);
    }
  }
}
