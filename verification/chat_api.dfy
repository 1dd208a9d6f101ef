/**
 * app/api/chat/route.ts: the assistant endpoint. It describes the site's
 * communities and events in a system message, forwards the conversation to
 * the chat-completion provider, and re-streams the text of the provider's
 * event stream.
 *
 * The stream reading is a simplified reading of the server-sent events format
 * (section 9.2 of the WHATWG HTML Living Standard): each network chunk is
 * split on '\n' by itself, only lines that begin with exactly 'data: ' are
 * read, and the terminating 'data: [DONE]' line is skipped. `JSON.parse` and
 * the path `choices[0].delta.content` are a parameter `parse` that yields the
 * content, or None when the payload does not parse or has no such path.
 */
module ChatApi {
  import opened Wrappers
  import opened Json
  import opened Text
  import opened Seqs
  import opened Api

  /** A community row: `name, description`. */
  datatype CommunityInfo = CommunityInfo(name: string, description: Option<string>)

  /** An event row: `title, date, location`; a null column interpolates as 'null'. */
  datatype EventInfo = EventInfo(title: string, date: Option<string>, location: Option<string>)

  /** `- name: description`, with 'No description' for a missing or empty one. */
  function CommunityLine(c: CommunityInfo): (r: string)
    ensures StartsWith(r, "- " + c.name + ": ")
    ensures (c.description.Some? && c.description.value != "") ==> r == "- " + c.name + ": " + c.description.value
    ensures !(c.description.Some? && c.description.value != "") ==> r == "- " + c.name + ": No description"
  {
    var head := "- " + c.name + ": ";
    var r := head + (if c.description.Some? && c.description.value != "" then c.description.value else "No description");
    assert r[..|head|] == head;
    r
  }

  function EventLine(e: EventInfo): string {
    "- " + e.title + " (" + Interpolated(e.date) + ") at " + Interpolated(e.location)
  }

  function CommunityLines(cs: seq<CommunityInfo>): (r: seq<string>)
    ensures |r| == |cs| && forall i :: 0 <= i < |cs| ==> r[i] == CommunityLine(cs[i])
  {
    seq(|cs|, i requires 0 <= i < |cs| => CommunityLine(cs[i]))
  }

  function EventLines(es: seq<EventInfo>): (r: seq<string>)
    ensures |r| == |es| && forall i :: 0 <= i < |es| ==> r[i] == EventLine(es[i])
  {
    seq(|es|, i requires 0 <= i < |es| => EventLine(es[i]))
  }

  const ContextHead: string := "\n\n**CURRENT SITE DATA:**\n"
  const NoCommunities: string := "Active Communities: None currently created.\n"

  function CommunitiesSection(cs: seq<CommunityInfo>): string {
    if |cs| > 0 then "Active Communities:\n" + Join(CommunityLines(cs), '\n') + "\n" else NoCommunities
  }

  function EventsSection(es: seq<EventInfo>): string {
    if |es| > 0 then "\nUpcoming Events:\n" + Join(EventLines(es), '\n') + "\n" else ""
  }

  /**
   * `dataContext`: the heading, the communities (or the sentence saying there
   * are none), then the events only when there is at least one.
   */
  function DataContext(cs: seq<CommunityInfo>, es: seq<EventInfo>): (r: string)
    ensures StartsWith(r, ContextHead)
    ensures |cs| == 0 && |es| == 0 ==> r == ContextHead + NoCommunities
    ensures |cs| == 0 ==> StartsWith(r, ContextHead + NoCommunities)
    ensures |es| == 0 ==> r == ContextHead + CommunitiesSection(cs)
    ensures |es| > 0 ==> r == ContextHead + CommunitiesSection(cs) + EventsSection(es) && |r| > |ContextHead + CommunitiesSection(cs)|
  {
    var r := ContextHead + CommunitiesSection(cs) + EventsSection(es);
    assert r[..|ContextHead|] == ContextHead;
    assert r[..|ContextHead + CommunitiesSection(cs)|] == ContextHead + CommunitiesSection(cs);
    r
  }

  /** One community with a description renders as one line. */
  lemma OneCommunityLine(name: string, description: string)
    requires description != ""
    ensures DataContext([CommunityInfo(name, Some(description))], []) ==
      ContextHead + "Active Communities:\n- " + name + ": " + description + "\n"
  {
    var line := "- " + name + ": " + description;
    assert CommunityLine(CommunityInfo(name, Some(description))) == line;
    assert CommunityLines([CommunityInfo(name, Some(description))]) == [line];
    assert Join([line], '\n') == line;
    assert CommunitiesSection([CommunityInfo(name, Some(description))]) == "Active Communities:\n" + line + "\n";
  }

  /**
   * A conversation message as it is sent upstream. The client's messages are
   * passed on as they came; the handler's own first message is written as
   * `{ content }` with no `role` key, so its role is `None`.
   */
  datatype ChatMessage = ChatMessage(role: Option<string>, content: string)

  const PromptIntro: string :=
    "You are the AI Assistant for 'Blue Testers' (Unified Campus Resource & Event Manager). Your purpose is to help students and staff streamline campus activities, book resources, and collaborate. \n\n"
    + "Features you know about:\n"
    + "- **Communities**: Students can join and create communities for interests/clubs (Dashboard > Communities).\n"
    + "- **General Chat**: A campus-wide chatroom for everyone.\n"
    + "- **Events**: Users can track and join campus events.\n"
    + "- **Resources**: Booking system for campus resources.\n\n"
  const PromptOutro: string := "\n\nBe helpful, friendly, and concise. If you don't know something, suggest checking the Dashboard."

  /** The instructions: the fixed introduction, the site data, and the closing advice. */
  function Instructions(ctx: string): string {
    PromptIntro + ctx + PromptOutro
  }

  /**
   * The messages sent upstream: the instructions with the site data, in a
   * message without a role, then the client's messages unchanged and in order.
   */
  function UpstreamMessages(ctx: string, client: seq<ChatMessage>): (r: seq<ChatMessage>)
    ensures |r| == |client| + 1
    ensures r[0].role.None? && r[0].content == Instructions(ctx)
    ensures r[1..] == client
  {
    [ChatMessage(None, Instructions(ctx))] + client
  }

  /**
   * The request built from the two queries, each of which yields `null` data
   * when it fails (read as no rows): the site data in the first message, then
   * the client's messages.
   */
  function UpstreamRequest(communities: Option<seq<CommunityInfo>>, events: Option<seq<EventInfo>>,
                           client: seq<ChatMessage>): (r: seq<ChatMessage>)
    ensures |r| == |client| + 1 && r[0].role.None? && r[1..] == client
    ensures r[0].content == Instructions(ContextHead + CommunitiesSection(communities.GetOr([])) + EventsSection(events.GetOr([])))
    ensures events.None? ==> r[0].content == Instructions(ContextHead + CommunitiesSection(communities.GetOr([])))
  {
    var cs, es := communities.GetOr([]), events.GetOr([]);
    assert |es| == 0 ==> ContextHead + CommunitiesSection(cs) + EventsSection(es) == ContextHead + CommunitiesSection(cs);
    UpstreamMessages(DataContext(cs, es), client)
  }

  /**
   * The events query names a `date` column, while the rest of the
   * application reads events by `start_date`. When the table has no `date`
   * column the select fails, its data is `null`, and whatever the events
   * table holds, the request describes the communities only.
   */
  lemma FailedEventsQueryDescribesCommunitiesOnly(communities: Option<seq<CommunityInfo>>, client: seq<ChatMessage>,
                                                  es: seq<EventInfo>)
    requires |es| > 0
    ensures UpstreamRequest(communities, None, client)[0].content == Instructions(ContextHead + CommunitiesSection(communities.GetOr([])))
    ensures UpstreamRequest(communities, None, client) != UpstreamRequest(communities, Some(es), client)
  {
    var cs := communities.GetOr([]);
    var without := ContextHead + CommunitiesSection(cs);
    assert |EventsSection(es)| > 0;
    assert |Instructions(without + EventsSection(es))| > |Instructions(without)|;
  }

  /** `line.startsWith('data: ') && line !== 'data: [DONE]'` */
  predicate IsDataLine(line: string) {
    StartsWith(line, "data: ") && line != "data: [DONE]"
  }

  /** A line is re-streamed when it is a data line whose payload parses to non-empty content. */
  function Emits(parse: string -> Option<string>): string -> bool {
    (l: string) => IsDataLine(l) && parse(l[6..]).Some? && parse(l[6..]).value != ""
  }

  /** The content a data line carries: its parsed payload. */
  function ContentOf(parse: string -> Option<string>): string -> string {
    (l: string) => if IsDataLine(l) && parse(l[6..]).Some? then parse(l[6..]).value else ""
  }

  /**
   * The content emitted for the lines of one chunk: the content of every data
   * line that has some, and nothing else, in line order.
   */
  function EmitLines(lines: seq<string>, parse: string -> Option<string>): (out: seq<string>)
    ensures out == Map(Filter(lines, Emits(parse)), ContentOf(parse))
    ensures forall x :: x in out ==> x != ""
    ensures forall x :: x in out ==> exists l :: l in lines && IsDataLine(l) && parse(l[6..]) == Some(x)
    ensures (forall l :: l in lines ==> !IsDataLine(l)) ==> out == []
    ensures |out| <= |lines|
    decreases |lines|
  {
    if |lines| == 0 then []
    else
      var rest := EmitLines(lines[1..], parse);
      assert forall l :: l in lines[1..] ==> l in lines;
      var l := lines[0];
      if IsDataLine(l) && parse(l[6..]).Some? && parse(l[6..]).value != "" then
        assert Filter(lines, Emits(parse)) == [l] + Filter(lines[1..], Emits(parse));
        MapCons(l, Filter(lines[1..], Emits(parse)), ContentOf(parse));
        [parse(l[6..]).value] + rest
      else rest
  }

  /** Every data line with content is re-streamed. */
  lemma DataLineReStreamed(lines: seq<string>, i: nat, parse: string -> Option<string>)
    requires i < |lines| && IsDataLine(lines[i]) && parse(lines[i][6..]).Some? && parse(lines[i][6..]).value != ""
    ensures parse(lines[i][6..]).value in EmitLines(lines, parse)
  {
    var kept := Filter(lines, Emits(parse));
    assert lines[i] in kept;
    var j :| 0 <= j < |kept| && kept[j] == lines[i];
    assert EmitLines(lines, parse)[j] == ContentOf(parse)(lines[i]);
  }

  /** The lines of two pieces are emitted piece after piece. */
  lemma EmitLinesConcat(a: seq<string>, b: seq<string>, parse: string -> Option<string>)
    ensures EmitLines(a + b, parse) == EmitLines(a, parse) + EmitLines(b, parse)
  {
    FilterConcat(a, b, Emits(parse));
    var fa, fb := Filter(a, Emits(parse)), Filter(b, Emits(parse));
    assert Map(fa + fb, ContentOf(parse)) == Map(fa, ContentOf(parse)) + Map(fb, ContentOf(parse));
  }

  /**
   * Everything re-streamed for the chunks, each chunk split into lines on its
   * own: a content is sent exactly when some chunk's lines emit it.
   */
  function StreamOutput(chunks: seq<string>, parse: string -> Option<string>): (out: seq<string>)
    ensures forall x :: x in out ==> x != ""
    ensures forall x :: x in out <==> exists i :: 0 <= i < |chunks| && x in EmitLines(Split(chunks[i], '\n'), parse)
    decreases |chunks|
  {
    if |chunks| == 0 then []
    else EmitLines(Split(chunks[0], '\n'), parse) + StreamOutput(chunks[1..], parse)
  }

  /** The chunks are re-streamed in arrival order: the output of two runs of chunks is the one after the other. */
  lemma {:induction false} StreamOutputConcat(a: seq<string>, b: seq<string>, parse: string -> Option<string>)
    ensures StreamOutput(a + b, parse) == StreamOutput(a, parse) + StreamOutput(b, parse)
    decreases |a|
  {
    if |a| == 0 {
      assert a + b == b;
    } else {
      assert (a + b)[0] == a[0];
      assert (a + b)[1..] == a[1..] + b;
      StreamOutputConcat(a[1..], b, parse);
    }
  }

  /** One chunk is re-streamed as its own lines are emitted. */
  lemma OneChunk(chunk: string, parse: string -> Option<string>)
    ensures StreamOutput([chunk], parse) == EmitLines(Split(chunk, '\n'), parse)
  {
    assert [chunk][1..] == [];
  }

  /**
   * A data line is read when it arrives whole; when the network cuts it
   * across two chunks, neither half begins with 'data: ' and its content is
   * lost.
   */
  lemma CutLineIsLost(payload: string, parse: string -> Option<string>, content: string)
    requires '\n' !in payload && payload != "[DONE]"
    requires parse(payload) == Some(content) && content != ""
    ensures StreamOutput(["data: " + payload], parse) == [content]
    ensures StreamOutput(["da", "ta: " + payload], parse) == []
  {
    WholeLineRead(payload, parse, content);
    HalvesIgnored(payload, parse);
  }

  lemma WholeLineRead(payload: string, parse: string -> Option<string>, content: string)
    requires '\n' !in payload && payload != "[DONE]"
    requires parse(payload) == Some(content) && content != ""
    ensures StreamOutput(["data: " + payload], parse) == [content]
  {
    var whole := "data: " + payload;
    assert '\n' !in whole by {
      assert forall i :: 0 <= i < 6 ==> whole[i] != '\n';
      assert forall i :: 6 <= i < |whole| ==> whole[i] == payload[i - 6];
    }
    assert Split(whole, '\n') == [whole];
    assert whole[..6] == "data: " && whole[6..] == payload;
    assert whole != "data: [DONE]";
    assert EmitLines([whole], parse) == [content];
  }

  lemma HalvesIgnored(payload: string, parse: string -> Option<string>)
    requires '\n' !in payload
    ensures StreamOutput(["da", "ta: " + payload], parse) == []
  {
    var second := "ta: " + payload;
    assert '\n' !in second by {
      assert forall i :: 0 <= i < 4 ==> second[i] != '\n';
      assert forall i :: 4 <= i < |second| ==> second[i] == payload[i - 4];
    }
    assert Split("da", '\n') == ["da"];
    assert Split(second, '\n') == [second];
    assert !StartsWith(second, "data: ") by {
      assert second[0] == 't';
    }
    assert EmitLines(["da"], parse) == [];
    assert EmitLines([second], parse) == [];
    assert ["da", second][1..] == [second];
    assert StreamOutput([second], parse) == [];
  }

  /** The provider's answer: an error status with its text, or a stream of chunks. */
  datatype Upstream = UpstreamError(status: nat, statusText: string, text: string) | UpstreamStream(chunks: seq<string>)

  /** The route's answer: a JSON error reply, or the re-streamed text. */
  datatype ChatReply = JsonReply(reply: Reply) | Streamed(output: seq<string>)

  /**
   * POST: without an API key, 500 before any upstream call; an upstream error
   * passes its status through with the error text as details; otherwise the
   * selected content is streamed.
   */
  function ChatPost(hasKey: bool, upstream: Upstream, parse: string -> Option<string>): (r: ChatReply)
    ensures !hasKey ==> r == JsonReply(ErrorReply(500, "Missing OpenRouter API Key"))
    ensures hasKey && upstream.UpstreamError? ==>
      r == JsonReply(DetailedError(upstream.status, "OpenRouter API Error: " + upstream.statusText, upstream.text))
    ensures r.Streamed? <==> hasKey && upstream.UpstreamStream?
    ensures r.Streamed? ==> r.output == StreamOutput(upstream.chunks, parse)
  {
    if !hasKey then JsonReply(ErrorReply(500, "Missing OpenRouter API Key"))
    else match upstream
      case UpstreamError(status, statusText, text) =>
        JsonReply(DetailedError(status, "OpenRouter API Error: " + statusText, text))
      case UpstreamStream(chunks) => Streamed(StreamOutput(chunks, parse))
  }
}
