/**
 * components/Chatbot.tsx: the assistant widget. A submit appends the user's
 * message, streams the reply into a new assistant message chunk by chunk,
 * and on any failure appends one apology.
 */
module Chatbot {
  import opened Wrappers
  import opened Text

  datatype Role = User | Assistant

  datatype ChatMessage = ChatMessage(role: Role, content: string)

  const Apology: string := "Sorry, I encountered an error. Please try again."

  /**
   * The streaming update: when the last message is the assistant's, the
   * chunk is appended to its content; nothing else changes.
   */
  function AppendChunk(ms: seq<ChatMessage>, chunk: string): (r: seq<ChatMessage>)
    ensures |r| == |ms|
    ensures forall i :: 0 <= i < |ms| - 1 ==> r[i] == ms[i]
    ensures |ms| > 0 && ms[|ms| - 1].role == Assistant ==>
      r[|ms| - 1] == ChatMessage(Assistant, ms[|ms| - 1].content + chunk)
    ensures !(|ms| > 0 && ms[|ms| - 1].role == Assistant) ==> r == ms
  {
    if |ms| > 0 && ms[|ms| - 1].role == Assistant then
      ms[|ms| - 1 := ChatMessage(Assistant, ms[|ms| - 1].content + chunk)]
    else ms
  }

  /** The chunks joined in the order they arrived. */
  function Concat(chunks: seq<string>): string {
    if |chunks| == 0 then "" else chunks[0] + Concat(chunks[1..])
  }

  /** The list after each chunk's update has run, in order. */
  function ApplyChunks(ms: seq<ChatMessage>, chunks: seq<string>): seq<ChatMessage>
    decreases |chunks|
  {
    if |chunks| == 0 then ms else ApplyChunks(AppendChunk(ms, chunks[0]), chunks[1..])
  }

  /** Streaming into an assistant message leaves it holding its old content followed by every chunk, in order. */
  lemma {:induction false} StreamAppendsAll(prefix: seq<ChatMessage>, content: string, chunks: seq<string>)
    ensures ApplyChunks(prefix + [ChatMessage(Assistant, content)], chunks) ==
      prefix + [ChatMessage(Assistant, content + Concat(chunks))]
    decreases |chunks|
  {
    if |chunks| > 0 {
      var ms := prefix + [ChatMessage(Assistant, content)];
      assert AppendChunk(ms, chunks[0]) == prefix + [ChatMessage(Assistant, content + chunks[0])];
      StreamAppendsAll(prefix, content + chunks[0], chunks[1..]);
      assert (content + chunks[0]) + Concat(chunks[1..]) == content + (chunks[0] + Concat(chunks[1..]));
    } else {
      assert content + Concat(chunks) == content;
    }
  }

  /** The request: not ok (or no body, or a network failure), or a stream that may break after some chunks. */
  datatype Response = Failed | Stream(chunks: seq<string>, broken: bool)

  datatype Widget = Widget(messages: seq<ChatMessage>, input: string, loading: bool)

  /** `handleSubmit`: the state afterwards and the `messages` the request carried, if one was made. */
  datatype Submitted = Submitted(after: Widget, request: Option<seq<ChatMessage>>)

  /** The list once the request is over, starting from the list with the user's message. */
  function Finished(sent: seq<ChatMessage>, response: Response): (ms: seq<ChatMessage>)
    ensures |ms| > |sent| && ms[..|sent|] == sent
    ensures response.Failed? ==> ms == sent + [ChatMessage(Assistant, Apology)]
    ensures response.Stream? ==>
      ms == sent + [ChatMessage(Assistant, Concat(response.chunks))] + (if response.broken then [ChatMessage(Assistant, Apology)] else [])
  {
    match response
    case Failed => sent + [ChatMessage(Assistant, Apology)]
    case Stream(chunks, broken) =>
      var streamed := ApplyChunks(sent + [ChatMessage(Assistant, "")], chunks);
      StreamAppendsAll(sent, "", chunks);
      assert "" + Concat(chunks) == Concat(chunks);
      if broken then streamed + [ChatMessage(Assistant, Apology)] else streamed
  }

  /**
   * `handleSubmit`: nothing happens for blank input or while loading.
   * Otherwise the trimmed text is appended as a user message and sent after
   * the earlier messages; the reply streams into a new assistant message;
   * a failure appends one apology; the input is empty and loading is over.
   */
  function HandleSubmit(w: Widget, response: Response): (s: Submitted)
    ensures Blank(w.input) || w.loading ==> s == Submitted(w, None)
    ensures !Blank(w.input) && !w.loading ==>
      && s.request == Some(w.messages + [ChatMessage(User, Trim(w.input))])
      && s.after == Widget(Finished(w.messages + [ChatMessage(User, Trim(w.input))], response), "", false)
  {
    if Blank(w.input) || w.loading then Submitted(w, None)
    else
      var sent := w.messages + [ChatMessage(User, Trim(w.input))];
      Submitted(Widget(Finished(sent, response), "", false), Some(sent))
  }

  /** A failed request adds exactly two messages: the user's, and one apology. */
  lemma OneApologyPerFailure(w: Widget)
    requires !Blank(w.input) && !w.loading
    ensures |HandleSubmit(w, Failed).after.messages| == |w.messages| + 2
    ensures HandleSubmit(w, Failed).after.messages[|w.messages| + 1] == ChatMessage(Assistant, Apology)
    ensures HandleSubmit(w, Failed).after.messages[..|w.messages|] == w.messages
  {
    var sent := w.messages + [ChatMessage(User, Trim(w.input))];
    assert HandleSubmit(w, Failed).after.messages == sent + [ChatMessage(Assistant, Apology)];
  }

  /** A complete stream leaves the user's message followed by one assistant message holding every chunk, in order. */
  lemma StreamedReplyIsWholeText(w: Widget, chunks: seq<string>)
    requires !Blank(w.input) && !w.loading
    ensures HandleSubmit(w, Stream(chunks, false)).after.messages ==
      w.messages + [ChatMessage(User, Trim(w.input)), ChatMessage(Assistant, Concat(chunks))]
  {
  }
}
