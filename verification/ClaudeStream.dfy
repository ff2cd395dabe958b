/**
 * Folding a provider's messages into chunks and an answer (pkg/ai/claude_stream.go).  Events are parsed
 * structures; how a tool call is summed up in words is the parameter `format`.
 */
module ClaudeStream {
  import opened Common

  // ---- Messages ----

  /** The "type" of an event, and of the chunks made from it. */
  datatype EventType =
    | ContentBlockDelta
    | ContentBlockStart
    | ContentBlockStop
    | AssistantMessage
    | OtherType(name: string)

  /** `isInputJSON`: its type is "input_json_delta". */
  datatype Delta = Delta(isInputJSON: bool, thinking: Option<string>, text: Option<string>, partialJSON: Option<string>)

  /** `isToolUse`: its type is "tool_use". */
  datatype Block = Block(isToolUse: bool, text: Option<string>, name: Option<string>)

  /** A protocol event; a missing or ill-typed field is None. */
  datatype StreamEvent = StreamEvent(kind: Option<EventType>, delta: Option<Delta>, contentBlock: Option<Block>)

  datatype Message =
    | Stream(event: StreamEvent)
    | Assistant(content: seq<string>, error: Option<string>)
    | Result(subtype: string, isError: bool, result: Option<string>)
    | OtherMessage

  /** What a turn finds on its channel: a message, a failed read, or that its own context ended first. */
  datatype Received = Got(message: Message) | Failed(error: ReceiveError) | TurnEnded

  datatype ReceiveError = ContextEnded | EndOfFile | OtherError(text: string)

  datatype Parts = Parts(
    eventType: EventType, thinking: string, text: string, meta: string, toolName: string, toolInput: string)

  function OrEmpty(s: Option<string>): string {
    if s.Some? then s.value else ""
  }

  function ToolName(b: Block): string {
    if TrimSpace(OrEmpty(b.name)) == "" then "unknown" else OrEmpty(b.name)
  }

  function UsingTool(name: string): (meta: string)
    ensures |meta| > |name|
  {
    "Using tool: " + name
  }

  function ParseStreamEvent(e: StreamEvent): Option<Parts> {
    match e.kind
    case Some(ContentBlockDelta) => (
      match e.delta
      case None => None
      case Some(d) =>
        Some(Parts(ContentBlockDelta, OrEmpty(d.thinking), OrEmpty(d.text), "", "",
                   if d.isInputJSON then OrEmpty(d.partialJSON) else "")))
    case Some(ContentBlockStart) => (
      match e.contentBlock
      case None => None
      case Some(b) =>
        Some(Parts(ContentBlockStart, "", OrEmpty(b.text),
                   if b.isToolUse then UsingTool(ToolName(b)) else "",
                   if b.isToolUse then ToolName(b) else "", "")))
    case Some(ContentBlockStop) => Some(Parts(ContentBlockStop, "", "", "", "", ""))
    case _ => None
  }

  datatype ChunkKind = MetaChunk | ThinkingChunk | AnswerChunk
  datatype StreamChunk = StreamChunk(kind: ChunkKind, text: string, eventType: EventType, seqNo: nat)

  // ---- The meaning of a message sequence, without any running state ----

  /** The parts of the events that carry something, in order. */
  function PartsOf(messages: seq<Message>): seq<Parts> {
    if messages == [] then []
    else
      var before, m := messages[..|messages| - 1], messages[|messages| - 1];
      PartsOf(before) + if m.Stream? && ParseStreamEvent(m.event).Some? then [ParseStreamEvent(m.event).value] else []
  }

  function Texts(parts: seq<Parts>): string {
    if parts == [] then "" else Texts(parts[..|parts| - 1]) + parts[|parts| - 1].text
  }

  function Inputs(parts: seq<Parts>): string {
    if parts == [] then "" else Inputs(parts[..|parts| - 1]) + parts[|parts| - 1].toolInput
  }

  function ThinkingChars(parts: seq<Parts>): nat {
    if parts == [] then 0 else ThinkingChars(parts[..|parts| - 1]) + |parts[|parts| - 1].thinking|
  }

  /**
   * The tool call that is open after `parts`: it starts at the `k`-th, and neither ends nor is followed by another
   * start.
   */
  ghost predicate OpenSince(parts: seq<Parts>, k: nat) {
    && k < |parts| && parts[k].toolName != ""
    && forall i | k < i < |parts| :: parts[i].toolName == "" && parts[i].eventType != ContentBlockStop
  }

  datatype Tool = Tool(name: string, input: string)

  ghost function OpenTool(parts: seq<Parts>): Option<Tool> {
    if k: nat :| OpenSince(parts, k) then Some(Tool(parts[k].toolName, Inputs(parts[k..]))) else None
  }

  lemma OpenSinceUnique(parts: seq<Parts>, j: nat, k: nat)
    requires OpenSince(parts, j) && OpenSince(parts, k)
    ensures j == k
  {
  }

  lemma StaysOpen(parts: seq<Parts>, p: Parts, k: nat)
    requires p.toolName == ""
    ensures OpenSince(parts + [p], k) <==> OpenSince(parts, k) && p.eventType != ContentBlockStop
  {
    var all := parts + [p];
    assert all[|parts|] == p && forall i | 0 <= i < |parts| :: all[i] == parts[i];
  }

  lemma Opens(parts: seq<Parts>, p: Parts)
    requires p.toolName != ""
    ensures OpenTool(parts + [p]) == Some(Tool(p.toolName, p.toolInput))
  {
    var all, n := parts + [p], |parts|;
    assert all[n] == p;
    OpenToolAt(all, n);
    assert all[n..] == [p] && [p][..0] == [];
    assert Inputs([]) == "" && Inputs([p]) == Inputs([]) + [p][0].toolInput;
    assert Inputs(all[n..]) == p.toolInput;
  }

  lemma OpenInput(parts: seq<Parts>, p: Parts, k: nat)
    requires k < |parts|
    ensures Inputs((parts + [p])[k..]) == Inputs(parts[k..]) + p.toolInput
  {
    var all := (parts + [p])[k..];
    assert all[..|all| - 1] == parts[k..] && all[|all| - 1] == p;
  }

  /** The open tool call after one more event. */
  lemma OpenToolStep(parts: seq<Parts>, p: Parts)
    ensures OpenTool(parts + [p]) ==
      if p.toolName != "" then Some(Tool(p.toolName, p.toolInput))
      else if p.eventType == ContentBlockStop || OpenTool(parts).None? then None
      else Some(Tool(OpenTool(parts).value.name, OpenTool(parts).value.input + p.toolInput))
  {
    if p.toolName != "" {
      Opens(parts, p);
    } else {
      forall k: nat ensures OpenSince(parts + [p], k) <==> OpenSince(parts, k) && p.eventType != ContentBlockStop {
        StaysOpen(parts, p, k);
      }
      if OpenTool(parts).Some? && p.eventType != ContentBlockStop {
        var k: nat :| OpenSince(parts, k);
        OpenToolAt(parts, k);
        OpenToolAt(parts + [p], k);
        OpenInput(parts, p, k);
      }
    }
  }

  lemma OpenToolAt(parts: seq<Parts>, k: nat)
    requires OpenSince(parts, k)
    ensures OpenTool(parts) == Some(Tool(parts[k].toolName, Inputs(parts[k..])))
  {
    var j: nat :| OpenSince(parts, j) && OpenTool(parts) == Some(Tool(parts[j].toolName, Inputs(parts[j..])));
    OpenSinceUnique(parts, j, k);
  }

  // ---- The chunks of a message sequence ----

  datatype Piece = Piece(kind: ChunkKind, text: string, eventType: EventType)

  function If(wanted: bool, p: Piece): seq<Piece> {
    if wanted then [p] else []
  }

  function SummaryPiece(format: (string, string) -> string, open: Option<Tool>, p: Parts): Piece {
    Piece(MetaChunk, if open.Some? then format(open.value.name, open.value.input) else "", p.eventType)
  }

  /** The chunks of one event; `open` is the tool call it finds open. */
  function EventPieces(format: (string, string) -> string, open: Option<Tool>, p: Parts): seq<Piece> {
    If(p.eventType == ContentBlockStop && open.Some?, SummaryPiece(format, open, p))
    + If(p.thinking != "", Piece(ThinkingChunk, p.thinking, p.eventType))
    + If(p.text != "", Piece(AnswerChunk, p.text, p.eventType))
    + If(p.meta != "", Piece(MetaChunk, p.meta, p.eventType))
  }

  lemma EventPieceIs(format: (string, string) -> string, open: Option<Tool>, p: Parts, q: Piece)
    requires q in EventPieces(format, open, p)
    ensures q.eventType == p.eventType && (q.kind == AnswerChunk ==> p.text != "")
  {
  }

  predicate IsBlank(s: string) { forall c | c in s :: IsSpace(c) }

  function BlockPieces(blocks: seq<string>): seq<Piece> {
    if blocks == [] then []
    else
      var n := |blocks| - 1;
      BlockPieces(blocks[..n]) + If(!IsBlank(blocks[n]), Piece(AnswerChunk, blocks[n], AssistantMessage))
  }

  /** The chunks of one message, when `open` is the open tool call and `streamText` the text streamed so far. */
  function MessagePieces(
      format: (string, string) -> string, open: Option<Tool>, streamText: string, m: Message): seq<Piece>
  {
    match m
    case Stream(e) =>
      if ParseStreamEvent(e).None? then [] else EventPieces(format, open, ParseStreamEvent(e).value)
    case Assistant(content, _) => if streamText == "" then BlockPieces(content) else []
    case _ => []
  }

  ghost function Pieces(format: (string, string) -> string, messages: seq<Message>): seq<Piece> {
    if messages == [] then []
    else
      var before, m := messages[..|messages| - 1], messages[|messages| - 1];
      Pieces(format, before) + MessagePieces(format, OpenTool(PartsOf(before)), Texts(PartsOf(before)), m)
  }

  /** Numbered 1, 2, 3, and so on. */
  function Numbered(pieces: seq<Piece>): seq<StreamChunk> {
    seq(|pieces|,
        i requires 0 <= i < |pieces| => StreamChunk(pieces[i].kind, pieces[i].text, pieces[i].eventType, i + 1))
  }

  // ---- What the chunks say ----

  predicate IsStreamAnswer(p: Piece) { p.kind == AnswerChunk && p.eventType != AssistantMessage }
  predicate IsFallback(p: Piece) { p.kind == AnswerChunk && p.eventType == AssistantMessage }

  function AnswerText(pieces: seq<Piece>): string {
    if pieces == [] then ""
    else
      var n := |pieces| - 1;
      AnswerText(pieces[..n]) + if IsStreamAnswer(pieces[n]) then pieces[n].text else ""
  }

  lemma {:induction false} AnswerTextConcat(a: seq<Piece>, b: seq<Piece>)
    ensures AnswerText(a + b) == AnswerText(a) + AnswerText(b)
  {
    if b == [] {
      assert a + b == a;
    } else {
      AnswerTextConcat(a, b[..|b| - 1]);
      assert (a + b)[..|a + b| - 1] == a + b[..|b| - 1];
    }
  }

  lemma AnswerTextOne(p: Piece, wanted: bool)
    ensures AnswerText(If(wanted, p)) == if wanted && IsStreamAnswer(p) then p.text else ""
  {
    assert AnswerText([]) == "";
    if wanted { assert [p][..0] == []; }
  }

  lemma AnswerTextFour(a: seq<Piece>, b: seq<Piece>, c: seq<Piece>, d: seq<Piece>)
    ensures AnswerText(a + b + c + d) == AnswerText(a) + AnswerText(b) + AnswerText(c) + AnswerText(d)
  {
    AnswerTextConcat(a, b);
    AnswerTextConcat(a + b, c);
    AnswerTextConcat(a + b + c, d);
  }

  lemma OnlyOneAnswers(a: seq<Piece>, b: seq<Piece>, c: seq<Piece>, d: seq<Piece>)
    requires AnswerText(a) == "" && AnswerText(b) == "" && AnswerText(d) == ""
    ensures AnswerText(a + b + c + d) == AnswerText(c)
  {
    AnswerTextFour(a, b, c, d);
  }

  lemma NoAnswerText(p: Piece, wanted: bool)
    requires p.kind != AnswerChunk
    ensures AnswerText(If(wanted, p)) == ""
  {
    AnswerTextOne(p, wanted);
  }

  lemma StreamedText(text: string, eventType: EventType)
    requires eventType != AssistantMessage
    ensures AnswerText(If(text != "", Piece(AnswerChunk, text, eventType))) == text
  {
    AnswerTextOne(Piece(AnswerChunk, text, eventType), text != "");
  }

  lemma EventAnswerText(format: (string, string) -> string, open: Option<Tool>, p: Parts)
    requires p.eventType != AssistantMessage
    ensures AnswerText(EventPieces(format, open, p)) == p.text
  {
    var summary := If(p.eventType == ContentBlockStop && open.Some?, SummaryPiece(format, open, p));
    var thinking := If(p.thinking != "", Piece(ThinkingChunk, p.thinking, p.eventType));
    var text := If(p.text != "", Piece(AnswerChunk, p.text, p.eventType));
    var meta := If(p.meta != "", Piece(MetaChunk, p.meta, p.eventType));
    NoAnswerText(SummaryPiece(format, open, p), p.eventType == ContentBlockStop && open.Some?);
    NoAnswerText(Piece(ThinkingChunk, p.thinking, p.eventType), p.thinking != "");
    StreamedText(p.text, p.eventType);
    NoAnswerText(Piece(MetaChunk, p.meta, p.eventType), p.meta != "");
    OnlyOneAnswers(summary, thinking, text, meta);
  }

  lemma EventTypes(e: StreamEvent)
    requires ParseStreamEvent(e).Some?
    ensures ParseStreamEvent(e).value.eventType != AssistantMessage
  {
  }

  lemma {:induction false} BlockAnswerText(blocks: seq<string>)
    ensures AnswerText(BlockPieces(blocks)) == ""
    ensures forall q | q in BlockPieces(blocks) :: IsFallback(q)
  {
    if blocks == [] {
    } else {
      var n := |blocks| - 1;
      BlockAnswerText(blocks[..n]);
      AnswerTextOne(Piece(AnswerChunk, blocks[n], AssistantMessage), !IsBlank(blocks[n]));
      AnswerTextConcat(BlockPieces(blocks[..n]),
          If(!IsBlank(blocks[n]), Piece(AnswerChunk, blocks[n], AssistantMessage)));
    }
  }

  lemma MessagePieceIs(format: (string, string) -> string, open: Option<Tool>, streamText: string, m: Message, q: Piece)
    requires q in MessagePieces(format, open, streamText, m)
    ensures IsStreamAnswer(q) ==>
      m.Stream? && ParseStreamEvent(m.event).Some? && ParseStreamEvent(m.event).value.text != ""
    ensures IsFallback(q) ==> m.Assistant? && streamText == ""
    ensures m.Assistant? ==> IsFallback(q)
  {
    if m.Stream? {
      EventTypes(m.event);
      EventPieceIs(format, open, ParseStreamEvent(m.event).value, q);
    } else if m.Assistant? {
      BlockAnswerText(m.content);
    }
  }

  lemma OneMoreParts(before: seq<Message>, m: Message)
    ensures var parts, all := PartsOf(before), PartsOf(before + [m]);
      if m.Stream? && ParseStreamEvent(m.event).Some? then
        var p := ParseStreamEvent(m.event).value;
        all == parts + [p] && Texts(all) == Texts(parts) + p.text
          && ThinkingChars(all) == ThinkingChars(parts) + |p.thinking|
      else all == parts
  {
    assert (before + [m])[..|before|] == before;
    if m.Stream? && ParseStreamEvent(m.event).Some? {
      var p := ParseStreamEvent(m.event).value;
      assert (PartsOf(before) + [p])[..|PartsOf(before)|] == PartsOf(before);
    }
  }

  // ---- The answer of a message sequence ----

  datatype Collected = Collected(assistantText: string, assistantErr: string, resultText: string, resultErr: string)

  function AppendBlock(text: string, block: string): string {
    if IsBlank(block) then text else if text != "" then text + "\n" + block else block
  }

  function AppendBlocks(text: string, blocks: seq<string>): string {
    if blocks == [] then text else AppendBlock(AppendBlocks(text, blocks[..|blocks| - 1]), blocks[|blocks| - 1])
  }

  function AfterResult(c: Collected, subtype: string, isError: bool, result: Option<string>): Collected {
    var stated := result.Some? && !IsBlank(result.value);
    c.(resultErr := if !isError then c.resultErr else if stated then TrimSpace(result.value) else subtype,
       resultText := if stated then result.value else c.resultText)
  }

  function CollectOne(c: Collected, m: Message): Collected {
    match m
    case Assistant(content, error) =>
      c.(assistantText := AppendBlocks(c.assistantText, content),
          assistantErr := if error.Some? then error.value else c.assistantErr)
    case Result(subtype, isError, result) => AfterResult(c, subtype, isError, result)
    case _ => c
  }

  function Collect(messages: seq<Message>): Collected {
    if messages == [] then Collected("", "", "", "")
    else CollectOne(Collect(messages[..|messages| - 1]), messages[|messages| - 1])
  }

  datatype ProviderError =
    | ResultError(text: string) | AssistantError(text: string) | EmptyResponse
    | ContextDone | Interrupted(text: string) | ReceiveFailed(text: string)

  function BestOutput(c: Collected, streamText: string): string {
    if !IsBlank(c.resultText) then c.resultText
    else if !IsBlank(c.assistantText) then TrimSpace(c.assistantText)
    else TrimSpace(streamText)
  }

  lemma NoOutputOnlyWhenBlank(c: Collected, streamText: string)
    ensures BestOutput(c, streamText) == ""
            <==> IsBlank(c.resultText) && IsBlank(c.assistantText) && IsBlank(streamText)
  {
    TrimEmptyIff(c.assistantText, IsSpace);
    TrimEmptyIff(streamText, IsSpace);
  }

  function Response(c: Collected, streamText: string): Common.Result<string, ProviderError> {
    var best := BestOutput(c, streamText);
    if best != "" then Ok(best)
    else if c.resultErr != "" then Err(ResultError(c.resultErr))
    else if c.assistantErr != "" then Err(AssistantError(c.assistantErr))
    else Err(EmptyResponse)
  }

  /** A turn fails only when nothing but blanks arrived; even an error result is an answer when it has text. */
  lemma FailsOnlyWhenBlank(c: Collected, streamText: string)
    ensures Response(c, streamText).Err? <==> IsBlank(c.resultText) && IsBlank(c.assistantText) && IsBlank(streamText)
  {
    NoOutputOnlyWhenBlank(c, streamText);
  }

  // ---- The same, message by message ----

  /** Everything a turn has to remember about the messages so far. */
  datatype Picture = Picture(
    collected: Collected, streamText: string, thinkingChars: nat, pieces: seq<Piece>, open: Option<Tool>)

  ghost function PictureOf(format: (string, string) -> string, messages: seq<Message>): Picture {
    var parts := PartsOf(messages);
    Picture(Collect(messages), Texts(parts), ThinkingChars(parts), Pieces(format, messages), OpenTool(parts))
  }

  function OpenAfter(open: Option<Tool>, p: Parts): Option<Tool> {
    if p.toolName != "" then Some(Tool(p.toolName, p.toolInput))
    else if p.eventType == ContentBlockStop || open.None? then None
    else Some(Tool(open.value.name, open.value.input + p.toolInput))
  }

  function Advance(format: (string, string) -> string, pic: Picture, m: Message): Picture {
    var collected := CollectOne(pic.collected, m);
    var pieces := pic.pieces + MessagePieces(format, pic.open, pic.streamText, m);
    if m.Stream? && ParseStreamEvent(m.event).Some? then
      var p := ParseStreamEvent(m.event).value;
      Picture(collected, pic.streamText + p.text, pic.thinkingChars + |p.thinking|, pieces, OpenAfter(pic.open, p))
    else pic.(collected := collected, pieces := pieces)
  }

  /** Remembering that much is enough. */
  lemma AdvanceIsRight(format: (string, string) -> string, before: seq<Message>, m: Message)
    ensures PictureOf(format, before + [m]) == Advance(format, PictureOf(format, before), m)
  {
    assert (before + [m])[..|before|] == before;
    OneMoreParts(before, m);
    if m.Stream? && ParseStreamEvent(m.event).Some? {
      OpenToolStep(PartsOf(before), ParseStreamEvent(m.event).value);
    }
  }

  lemma NothingYet(format: (string, string) -> string)
    ensures PictureOf(format, []) == Picture(Collected("", "", "", ""), "", 0, [], None)
  {
    assert forall k: nat :: !OpenSince([], k);
  }

  // ---- What the chunks of a message sequence say ----

  /**
   * The answer chunks of stream events are the streamed text, and no whole assistant block is shown
   * as an answer chunk after one of them.
   */
  ghost predicate Consistent(pieces: seq<Piece>, streamText: string) {
    && AnswerText(pieces) == streamText
    && (forall q | q in pieces && IsStreamAnswer(q) :: streamText != "")
    && forall i, j | 0 <= i < j < |pieces| && IsStreamAnswer(pieces[i]) :: !IsFallback(pieces[j])
  }

  lemma ConsistentAppend(pieces: seq<Piece>, streamText: string, made: seq<Piece>, text: string)
    requires Consistent(pieces, streamText) && AnswerText(made) == text
    requires forall q | q in made :: (IsStreamAnswer(q) ==> text != "") && (IsFallback(q) ==> streamText == "")
    requires forall q, r | q in made && r in made :: !(IsStreamAnswer(q) && IsFallback(r))
    ensures Consistent(pieces + made, streamText + text)
  {
    AnswerTextConcat(pieces, made);
    var all := pieces + made;
    forall i, j | 0 <= i < j < |all| && IsStreamAnswer(all[i]) ensures !IsFallback(all[j]) {
      if j >= |pieces| {
        assert all[j] in made;
        assert if i < |pieces| then all[i] in pieces else all[i] in made;
      }
    }
  }

  /** The text a message streams. */
  function StreamedBy(m: Message): string {
    if m.Stream? && ParseStreamEvent(m.event).Some? then ParseStreamEvent(m.event).value.text else ""
  }

  lemma MessageAnswerText(format: (string, string) -> string, open: Option<Tool>, streamText: string, m: Message)
    ensures AnswerText(MessagePieces(format, open, streamText, m)) == StreamedBy(m)
  {
    if m.Stream? && ParseStreamEvent(m.event).Some? {
      EventTypes(m.event);
      EventAnswerText(format, open, ParseStreamEvent(m.event).value);
    } else if m.Assistant? {
      BlockAnswerText(m.content);
    }
  }

  lemma MessageConsistent(
      format: (string, string) -> string, pieces: seq<Piece>, open: Option<Tool>, streamText: string, m: Message)
    requires Consistent(pieces, streamText)
    ensures Consistent(pieces + MessagePieces(format, open, streamText, m), streamText + StreamedBy(m))
  {
    var made := MessagePieces(format, open, streamText, m);
    MessageAnswerText(format, open, streamText, m);
    forall q | q in made
      ensures IsStreamAnswer(q) ==> m.Stream? && StreamedBy(m) != ""
      ensures IsFallback(q) ==> m.Assistant? && streamText == ""
    {
      MessagePieceIs(format, open, streamText, m, q);
    }
    ConsistentAppend(pieces, streamText, made, StreamedBy(m));
  }

  lemma AdvanceText(format: (string, string) -> string, pic: Picture, m: Message)
    ensures Advance(format, pic, m).streamText == pic.streamText + StreamedBy(m)
    ensures Advance(format, pic, m).pieces == pic.pieces + MessagePieces(format, pic.open, pic.streamText, m)
  {
  }

  lemma {:induction false} ChunksAreConsistent(format: (string, string) -> string, messages: seq<Message>)
    ensures Consistent(Pieces(format, messages), Texts(PartsOf(messages)))
  {
    if messages == [] {
    } else {
      var before, m := messages[..|messages| - 1], messages[|messages| - 1];
      assert messages == before + [m];
      ChunksAreConsistent(format, before);
      var pic := PictureOf(format, before);
      MessageConsistent(format, pic.pieces, pic.open, pic.streamText, m);
      AdvanceText(format, pic, m);
      AdvanceIsRight(format, before, m);
    }
  }

  lemma StopPieces(format: (string, string) -> string, open: Option<Tool>, streamText: string, stop: StreamEvent)
    requires stop.kind == Some(ContentBlockStop)
    ensures MessagePieces(format, open, streamText, Stream(stop))
      == if open.Some? then [Piece(MetaChunk, format(open.value.name, open.value.input), ContentBlockStop)] else []
  {
  }

  /** A tool summary is made from exactly the fragments since that tool's own start. */
  lemma ToolSummary(format: (string, string) -> string, messages: seq<Message>, stop: StreamEvent, k: nat)
    requires stop.kind == Some(ContentBlockStop) && OpenSince(PartsOf(messages), k)
    ensures var parts := PartsOf(messages);
      Pieces(format, messages + [Stream(stop)]) == Pieces(format, messages)
        + [Piece(MetaChunk, format(parts[k].toolName, Inputs(parts[k..])), ContentBlockStop)]
  {
    var pic := PictureOf(format, messages);
    OpenToolAt(PartsOf(messages), k);
    StopPieces(format, pic.open, pic.streamText, stop);
    AdvanceText(format, pic, Stream(stop));
    AdvanceIsRight(format, messages, Stream(stop));
  }

  /** The end of a block outside a tool call shows nothing. */
  lemma NoToolNoSummary(format: (string, string) -> string, messages: seq<Message>, stop: StreamEvent)
    requires stop.kind == Some(ContentBlockStop) && forall k: nat :: !OpenSince(PartsOf(messages), k)
    ensures Pieces(format, messages + [Stream(stop)]) == Pieces(format, messages)
  {
    var pic := PictureOf(format, messages);
    assert pic.open == None;
    StopPieces(format, pic.open, pic.streamText, stop);
    AdvanceText(format, pic, Stream(stop));
    AdvanceIsRight(format, messages, Stream(stop));
  }

  // ---- What the fields of an event become ----

  lemma OneMorePieces(format: (string, string) -> string, messages: seq<Message>, m: Message)
    ensures Pieces(format, messages + [m]) == Pieces(format, messages)
      + MessagePieces(format, OpenTool(PartsOf(messages)), Texts(PartsOf(messages)), m)
  {
    AdvanceText(format, PictureOf(format, messages), m);
    AdvanceIsRight(format, messages, m);
  }

  function OnePiece(kind: ChunkKind, text: Option<string>, eventType: EventType): seq<Piece> {
    if text.None? || text.value == "" then [] else [Piece(kind, text.value, eventType)]
  }

  lemma NotStopPieces(format: (string, string) -> string, open: Option<Tool>, p: Parts)
    requires p.eventType != ContentBlockStop
    ensures EventPieces(format, open, p)
      == If(p.thinking != "", Piece(ThinkingChunk, p.thinking, p.eventType))
        + If(p.text != "", Piece(AnswerChunk, p.text, p.eventType))
        + If(p.meta != "", Piece(MetaChunk, p.meta, p.eventType))
  {
  }

  lemma OnePieceIf(kind: ChunkKind, text: Option<string>, eventType: EventType)
    ensures OnePiece(kind, text, eventType) == If(OrEmpty(text) != "", Piece(kind, OrEmpty(text), eventType))
  {
  }

  lemma DeltaPieces(
      format: (string, string) -> string, open: Option<Tool>, streamText: string, e: StreamEvent, d: Delta)
    requires e.kind == Some(ContentBlockDelta) && e.delta == Some(d)
    ensures MessagePieces(format, open, streamText, Stream(e))
      == OnePiece(ThinkingChunk, d.thinking, ContentBlockDelta) + OnePiece(AnswerChunk, d.text, ContentBlockDelta)
  {
    NotStopPieces(format, open, ParseStreamEvent(e).value);
    OnePieceIf(ThinkingChunk, d.thinking, ContentBlockDelta);
    OnePieceIf(AnswerChunk, d.text, ContentBlockDelta);
  }

  lemma UnthinkingPieces(format: (string, string) -> string, open: Option<Tool>, p: Parts, meta: seq<Piece>)
    requires p.eventType != ContentBlockStop && p.thinking == ""
    requires meta == If(p.meta != "", Piece(MetaChunk, p.meta, p.eventType))
    ensures EventPieces(format, open, p) == If(p.text != "", Piece(AnswerChunk, p.text, p.eventType)) + meta
  {
    NotStopPieces(format, open, p);
  }

  /** What the start of a block says: the tool it uses. */
  function StartMeta(b: Block): seq<Piece> {
    if b.isToolUse then [Piece(MetaChunk, UsingTool(ToolName(b)), ContentBlockStart)] else []
  }

  lemma StartMetaIs(e: StreamEvent, b: Block)
    requires e.kind == Some(ContentBlockStart) && e.contentBlock == Some(b)
    ensures var p := ParseStreamEvent(e);
      && p.Some? && p.value.eventType == ContentBlockStart && p.value.thinking == "" && p.value.text == OrEmpty(b.text)
      && StartMeta(b) == If(p.value.meta != "", Piece(MetaChunk, p.value.meta, ContentBlockStart))
  {
  }

  lemma StartPieces(
      format: (string, string) -> string, open: Option<Tool>, streamText: string, e: StreamEvent, b: Block)
    requires e.kind == Some(ContentBlockStart) && e.contentBlock == Some(b)
    ensures MessagePieces(format, open, streamText, Stream(e))
         == OnePiece(AnswerChunk, b.text, ContentBlockStart) + StartMeta(b)
  {
    StartMetaIs(e, b);
    UnthinkingPieces(format, open, ParseStreamEvent(e).value, StartMeta(b));
    OnePieceIf(AnswerChunk, b.text, ContentBlockStart);
  }

  lemma ToolNameIs(b: Block)
    ensures ToolName(b) == if NamesTool(b) then b.name.value else "unknown"
    ensures |ToolName(b)| > 0
  {
    TrimEmptyIff(OrEmpty(b.name), IsSpace);
  }

  /** A delta's thinking and its text each become one chunk, the thinking first; an empty or missing one none. */
  lemma DeltaChunks(format: (string, string) -> string, messages: seq<Message>, e: StreamEvent, d: Delta)
    requires e.kind == Some(ContentBlockDelta) && e.delta == Some(d)
    ensures Pieces(format, messages + [Stream(e)]) == Pieces(format, messages)
      + (OnePiece(ThinkingChunk, d.thinking, ContentBlockDelta) + OnePiece(AnswerChunk, d.text, ContentBlockDelta))
  {
    OneMorePieces(format, messages, Stream(e));
    DeltaPieces(format, OpenTool(PartsOf(messages)), Texts(PartsOf(messages)), e, d);
  }

  /** The start of a block shows its text, and for a tool call which tool it uses. */
  lemma StartChunks(format: (string, string) -> string, messages: seq<Message>, e: StreamEvent, b: Block)
    requires e.kind == Some(ContentBlockStart) && e.contentBlock == Some(b)
    ensures var used := "Using tool: " + if NamesTool(b) then b.name.value else "unknown";
      Pieces(format, messages + [Stream(e)]) == Pieces(format, messages)
        + (OnePiece(AnswerChunk, b.text, ContentBlockStart)
           + if b.isToolUse then [Piece(MetaChunk, used, ContentBlockStart)] else [])
  {
    OneMorePieces(format, messages, Stream(e));
    StartPieces(format, OpenTool(PartsOf(messages)), Texts(PartsOf(messages)), e, b);
    ToolNameIs(b);
  }

  /** The block has a name that is not blank. */
  predicate NamesTool(b: Block) {
    b.name.Some? && exists c | c in b.name.value :: !IsSpace(c)
  }

  /** An event without the structure of its type, or of another type, and a message that is no text. */
  predicate IsSilent(m: Message) {
    match m
    case Stream(e) => (
      match e.kind
      case Some(ContentBlockDelta) => e.delta.None?
      case Some(ContentBlockStart) => e.contentBlock.None?
      case Some(ContentBlockStop) => false
      case _ => true)
    case Assistant(_, _) => false
    case _ => true
  }

  lemma NoPieces(format: (string, string) -> string, open: Option<Tool>, streamText: string, m: Message)
    requires IsSilent(m)
    ensures MessagePieces(format, open, streamText, m) == []
  {
  }

  lemma SilentMessages(format: (string, string) -> string, messages: seq<Message>, m: Message)
    requires IsSilent(m)
    ensures Pieces(format, messages + [m]) == Pieces(format, messages)
  {
    OneMorePieces(format, messages, m);
    NoPieces(format, OpenTool(PartsOf(messages)), Texts(PartsOf(messages)), m);
  }

  /** The text field of a delta, or of the block that starts. */
  function TextField(m: Message): string {
    if !m.Stream? then ""
    else if m.event.kind == Some(ContentBlockDelta) && m.event.delta.Some? && m.event.delta.value.text.Some? then
      m.event.delta.value.text.value
    else if m.event.kind == Some(ContentBlockStart) && m.event.contentBlock.Some?
         && m.event.contentBlock.value.text.Some? then
      m.event.contentBlock.value.text.value
    else ""
  }

  function TextFields(messages: seq<Message>): string {
    if messages == [] then "" else TextFields(messages[..|messages| - 1]) + TextField(messages[|messages| - 1])
  }

  lemma TextOfParts(e: StreamEvent)
    ensures TextField(Stream(e)) == if ParseStreamEvent(e).Some? then ParseStreamEvent(e).value.text else ""
  {
  }

  lemma TextsNext(before: seq<Message>, m: Message)
    ensures Texts(PartsOf(before + [m])) == Texts(PartsOf(before)) + TextField(m)
  {
    OneMoreParts(before, m);
    if m.Stream? { TextOfParts(m.event); }
  }

  /** The streamed text is the text fields of the deltas and of the starting blocks, one after another. */
  lemma {:induction false} StreamedTextIs(messages: seq<Message>)
    ensures Texts(PartsOf(messages)) == TextFields(messages)
  {
    if messages == [] {
    } else {
      var before, m := messages[..|messages| - 1], messages[|messages| - 1];
      assert messages == before + [m];
      StreamedTextIs(before);
      TextsNext(before, m);
    }
  }

  /** The fragment of tool input that a message carries: only a delta of the type for it has one. */
  function Fragment(m: Message): string {
    if m.Stream? && m.event.kind == Some(ContentBlockDelta) && m.event.delta.Some?
      && m.event.delta.value.isInputJSON && m.event.delta.value.partialJSON.Some? then
      m.event.delta.value.partialJSON.value
    else ""
  }

  function Fragments(messages: seq<Message>): string {
    if messages == [] then "" else Fragments(messages[..|messages| - 1]) + Fragment(messages[|messages| - 1])
  }

  predicate StartsTool(m: Message) {
    && m.Stream? && m.event.kind == Some(ContentBlockStart)
    && m.event.contentBlock.Some? && m.event.contentBlock.value.isToolUse
  }

  predicate EndsBlock(m: Message) { m.Stream? && m.event.kind == Some(ContentBlockStop) }

  /** The `k`-th message starts a tool call, and after it no block ends and no other one starts. */
  ghost predicate ToolSince(messages: seq<Message>, k: nat) {
    && k < |messages| && StartsTool(messages[k])
    && forall i | k < i < |messages| :: !StartsTool(messages[i]) && !EndsBlock(messages[i])
  }

  function ToolOf(m: Message): string
    requires StartsTool(m)
  {
    var b := m.event.contentBlock.value;
    if NamesTool(b) then b.name.value else "unknown"
  }

  lemma NothingOpen()
    ensures OpenTool(PartsOf([])) == None
  {
    assert forall k: nat :: !OpenSince([], k);
  }

  lemma InputOfParts(e: StreamEvent)
    ensures Fragment(Stream(e)) == if ParseStreamEvent(e).Some? then ParseStreamEvent(e).value.toolInput else ""
  {
  }

  lemma StartOfParts(e: StreamEvent)
    requires StartsTool(Stream(e))
    ensures ParseStreamEvent(e).Some? && ParseStreamEvent(e).value.toolName == ToolOf(Stream(e))
    ensures |ToolOf(Stream(e))| > 0 && ParseStreamEvent(e).value.toolInput == ""
  {
    ToolNameIs(e.contentBlock.value);
  }

  lemma NoStartOfParts(e: StreamEvent)
    requires !StartsTool(Stream(e))
    ensures ParseStreamEvent(e).Some? ==> ParseStreamEvent(e).value.toolName == ""
    ensures EndsBlock(Stream(e))
            <==> ParseStreamEvent(e).Some? && ParseStreamEvent(e).value.eventType == ContentBlockStop
  {
  }

  lemma OpenToolNext(before: seq<Message>, m: Message)
    ensures OpenTool(PartsOf(before + [m])) ==
      if StartsTool(m) then Some(Tool(ToolOf(m), ""))
      else if EndsBlock(m) || OpenTool(PartsOf(before)).None? then None
      else Some(Tool(OpenTool(PartsOf(before)).value.name, OpenTool(PartsOf(before)).value.input + Fragment(m)))
  {
    OneMoreParts(before, m);
    if m.Stream? {
      InputOfParts(m.event);
      if StartsTool(m) { StartOfParts(m.event); } else { NoStartOfParts(m.event); }
    }
    if m.Stream? && ParseStreamEvent(m.event).Some? {
      OpenToolStep(PartsOf(before), ParseStreamEvent(m.event).value);
    } else if OpenTool(PartsOf(before)).Some? {
      assert OpenTool(PartsOf(before)).value.input + Fragment(m) == OpenTool(PartsOf(before)).value.input;
    }
  }

  lemma ToolSinceSnoc(before: seq<Message>, m: Message, k: nat)
    ensures ToolSince(before + [m], k)
            <==> if k == |before| then StartsTool(m) else ToolSince(before, k) && !StartsTool(m) && !EndsBlock(m)
  {
    var all := before + [m];
    assert all[|before|] == m && forall i | 0 <= i < |before| :: all[i] == before[i];
  }

  lemma FragmentsSnoc(before: seq<Message>, m: Message, k: nat)
    requires k <= |before|
    ensures Fragments((before + [m])[k..])
          == if k == |before| then Fragment(m) else Fragments(before[k..]) + Fragment(m)
  {
    var rest := (before + [m])[k..];
    assert rest[..|rest| - 1] == before[k..] && rest[|rest| - 1] == m;
    if k == |before| { assert Fragments(before[k..]) == "" && "" + Fragment(m) == Fragment(m); }
  }

  lemma StartIsNoInput(m: Message)
    requires StartsTool(m)
    ensures Fragment(m) == ""
  {
  }

  /** The tool call that is followed is the last one started, while its block has not ended, with its fragments. */
  lemma {:induction false} ToolFollowed(messages: seq<Message>, k: nat)
    requires ToolSince(messages, k)
    ensures OpenTool(PartsOf(messages)) == Some(Tool(ToolOf(messages[k]), Fragments(messages[k..])))
    decreases |messages|
  {
    var before, m := messages[..|messages| - 1], messages[|messages| - 1];
    assert messages == before + [m];
    OpenToolNext(before, m);
    ToolSinceSnoc(before, m, k);
    FragmentsSnoc(before, m, k);
    if k == |before| { StartIsNoInput(m); } else { ToolFollowed(before, k); }
  }

  lemma {:induction false} FollowedTool(messages: seq<Message>) returns (k: nat)
    requires OpenTool(PartsOf(messages)).Some?
    ensures ToolSince(messages, k)
    decreases |messages|
  {
    if messages == [] {
      NothingOpen();
      assert false;
    } else {
      var before, m := messages[..|messages| - 1], messages[|messages| - 1];
      assert messages == before + [m];
      OpenToolNext(before, m);
      if StartsTool(m) { k := |before|; } else { k := FollowedTool(before); }
      ToolSinceSnoc(before, m, k);
    }
  }

  /** The end of a tool's block shows a summary of that tool and exactly the fragments since its start. */
  lemma StopSummarises(format: (string, string) -> string, messages: seq<Message>, stop: StreamEvent, k: nat)
    requires stop.kind == Some(ContentBlockStop) && ToolSince(messages, k)
    ensures Pieces(format, messages + [Stream(stop)]) == Pieces(format, messages)
      + [Piece(MetaChunk, format(ToolOf(messages[k]), Fragments(messages[k..])), ContentBlockStop)]
  {
    ToolFollowed(messages, k);
    OneMorePieces(format, messages, Stream(stop));
    StopPieces(format, OpenTool(PartsOf(messages)), Texts(PartsOf(messages)), stop);
  }

  lemma StopShowsNothing(format: (string, string) -> string, messages: seq<Message>, stop: StreamEvent)
    requires stop.kind == Some(ContentBlockStop) && forall k: nat :: !ToolSince(messages, k)
    ensures Pieces(format, messages + [Stream(stop)]) == Pieces(format, messages)
  {
    if OpenTool(PartsOf(messages)).Some? {
      var k := FollowedTool(messages);
      assert false;
    }
    OneMorePieces(format, messages, Stream(stop));
    StopPieces(format, OpenTool(PartsOf(messages)), Texts(PartsOf(messages)), stop);
  }

  function IfNonBlank(block: string): seq<string> {
    if exists c | c in block :: !IsSpace(c) then [block] else []
  }

  /** The blocks that hold more than blanks. */
  function NonBlank(blocks: seq<string>): seq<string> {
    if blocks == [] then []
    else
      var n := |blocks| - 1;
      NonBlank(blocks[..n]) + IfNonBlank(blocks[n])
  }

  function AnswerPieces(blocks: seq<string>): seq<Piece> {
    seq(|blocks|, i requires 0 <= i < |blocks| => Piece(AnswerChunk, blocks[i], AssistantMessage))
  }

  lemma {:induction false} BlockPiecesAre(blocks: seq<string>)
    ensures BlockPieces(blocks) == AnswerPieces(NonBlank(blocks))
  {
    if blocks != [] { BlockPiecesAre(blocks[..|blocks| - 1]); }
  }

  /** While nothing has been streamed the blocks of a whole message are shown as answers, and afterwards none. */
  lemma AssistantChunks(
      format: (string, string) -> string, messages: seq<Message>, content: seq<string>, error: Option<string>)
    ensures Pieces(format, messages + [Assistant(content, error)]) == Pieces(format, messages)
      + if TextFields(messages) != "" then [] else AnswerPieces(NonBlank(content))
  {
    StreamedTextIs(messages);
    OneMorePieces(format, messages, Assistant(content, error));
    BlockPiecesAre(content);
  }

  // ---- The running state ----

  class ChunkSink {
    var chunks: seq<StreamChunk>

    constructor ()
      ensures chunks == []
    {
      chunks := [];
    }

    method OnChunk(c: StreamChunk)
      modifies this
      ensures chunks == old(chunks) + [c]
    {
      chunks := chunks + [c];
    }
  }

  // ---- The end of a turn ----

  predicate IsAnswered(read: seq<Message>) {
    read != [] && read[|read| - 1].Result?
  }

  ghost predicate Takes(items: seq<Received>, read: seq<Message>) {
    |read| <= |items| && forall i | 0 <= i < |read| :: items[i] == Got(read[i])
  }

  /** `read` are the messages before the first failure, up to the first result. */
  ghost predicate IsTurn(items: seq<Received>, read: seq<Message>) {
    && Takes(items, read)
    && (forall i | 0 <= i < |read| - 1 :: !read[i].Result?)
    && (IsAnswered(read) || |read| == |items| || !items[|read|].Got?)
  }

  /** What arrives determines the messages that a turn takes. */
  lemma TurnIsUnique(items: seq<Received>, a: seq<Message>, b: seq<Message>)
    requires IsTurn(items, a) && IsTurn(items, b)
    ensures a == b
  {
  }

  function FailureOf(e: ReceiveError, lower: char -> char): ProviderError
    requires !e.EndOfFile?
  {
    if e.ContextEnded? then ContextDone
    else if IsInfix("interrupt", Lowered(e.text, lower)) then Interrupted(e.text)
    else ReceiveFailed(e.text)
  }

  function EndedBy(item: Received, response: Common.Result<string, ProviderError>, lower: char -> char)
    : Common.Result<string, ProviderError>
  {
    match item
    case TurnEnded => Err(ContextDone)
    case Failed(e) => if e.EndOfFile? then response else Err(FailureOf(e, lower))
    case Got(_) => response
  }

  /** How a turn that took the messages `read` ends; `response` is what their text gives. */
  function Ending(items: seq<Received>, read: seq<Message>, response: Common.Result<string, ProviderError>,
                  lower: char -> char): Common.Result<string, ProviderError>
    requires |read| <= |items|
  {
    if IsAnswered(read) || |read| == |items| then response else EndedBy(items[|read|], response, lower)
  }

  class AskStreamState {
    const format: (string, string) -> string
    var seqNo: nat
    var collected: Collected
    var streamText: string
    var streamChars: nat
    var thinkingChars: nat
    var currentToolName: string
    var toolInputBuf: string

    constructor (format: (string, string) -> string)
      ensures this.format == format
      ensures seqNo == 0 && collected == Collected("", "", "", "")
      ensures streamText == "" && streamChars == 0 && thinkingChars == 0
      ensures currentToolName == "" && toolInputBuf == ""
    {
      this.format := format;
      seqNo, collected, streamText, streamChars, thinkingChars := 0, Collected("", "", "", ""), "", 0, 0;
      currentToolName, toolInputBuf := "", "";
    }

    /** `open` is the tool call being followed. */
    ghost predicate Follows(open: Option<Tool>)
      reads this
    {
      match open
      case None => currentToolName == ""
      case Some(t) => currentToolName == t.name && toolInputBuf == t.input && t.name != ""
    }

    /** What has been emitted is `pieces`, numbered. */
    ghost predicate Emitted(sink: ChunkSink, pieces: seq<Piece>)
      reads this, sink
    {
      seqNo == |pieces| && sink.chunks == Numbered(pieces)
    }

    /** The state is that picture; without a callback no chunk is counted and no tool call followed. */
    ghost predicate Shows(pic: Picture, sink: ChunkSink?)
      reads this, sink
    {
      && collected == pic.collected
      && streamText == pic.streamText && streamChars == |streamText| && thinkingChars == pic.thinkingChars
      && (if sink == null then seqNo == 0 else Emitted(sink, pic.pieces) && Follows(pic.open))
    }

    method Emit(sink: ChunkSink, p: Piece, ghost pieces: seq<Piece>)
      requires Emitted(sink, pieces)
      modifies this`seqNo, sink
      ensures Emitted(sink, pieces + [p])
    {
      seqNo := seqNo + 1;
      sink.OnChunk(StreamChunk(p.kind, p.text, p.eventType, seqNo));
      assert Numbered(pieces + [p]) == Numbered(pieces) + [StreamChunk(p.kind, p.text, p.eventType, |pieces| + 1)];
    }

    method EmitIf(sink: ChunkSink, wanted: bool, p: Piece, ghost pieces: seq<Piece>)
      requires Emitted(sink, pieces)
      modifies this`seqNo, sink
      ensures Emitted(sink, pieces + If(wanted, p))
    {
      if wanted { Emit(sink, p, pieces); }
    }

    /** Follows the tool call under way; a summary comes out when one ends. */
    method TrackTool(p: Parts, ghost open: Option<Tool>) returns (summary: Option<string>)
      requires Follows(open) && (p.eventType == ContentBlockStop ==> p.toolName == "" && p.toolInput == "")
      modifies this`currentToolName, this`toolInputBuf
      ensures Follows(OpenAfter(open, p))
      ensures summary == if p.eventType == ContentBlockStop && open.Some? then Some(SummaryPiece(format, open, p).text)
        else None
    {
      if p.toolName != "" {
        currentToolName := p.toolName;
        toolInputBuf := "";
      }
      if p.toolInput != "" {
        toolInputBuf := toolInputBuf + p.toolInput;
      }
      summary := None;
      if p.eventType == ContentBlockStop && currentToolName != "" {
        summary := Some(format(currentToolName, toolInputBuf));
        currentToolName := "";
        toolInputBuf := "";
      }
    }

    method StreamEventChunks(p: Parts, sink: ChunkSink, ghost open: Option<Tool>, ghost pieces: seq<Piece>)
      requires Follows(open) && Emitted(sink, pieces)
      requires p.eventType == ContentBlockStop ==> p.toolName == "" && p.toolInput == ""
      modifies this`seqNo, this`currentToolName, this`toolInputBuf, sink
      ensures Follows(OpenAfter(open, p)) && Emitted(sink, pieces + EventPieces(format, open, p))
    {
      var summary := TrackTool(p, open);
      ghost var a := If(p.eventType == ContentBlockStop && open.Some?, SummaryPiece(format, open, p));
      ghost var b := If(p.thinking != "", Piece(ThinkingChunk, p.thinking, p.eventType));
      ghost var c := If(p.text != "", Piece(AnswerChunk, p.text, p.eventType));
      ghost var d := If(p.meta != "", Piece(MetaChunk, p.meta, p.eventType));
      EmitIf(sink, summary.Some?, Piece(MetaChunk, OrEmpty(summary), p.eventType), pieces);
      EmitIf(sink, p.thinking != "", Piece(ThinkingChunk, p.thinking, p.eventType), pieces + a);
      EmitIf(sink, p.text != "", Piece(AnswerChunk, p.text, p.eventType), pieces + a + b);
      EmitIf(sink, p.meta != "", Piece(MetaChunk, p.meta, p.eventType), pieces + a + b + c);
      ConcatFive(pieces, a, b, c, d);
    }

    method HandleStreamEvent(e: StreamEvent, sink: ChunkSink?, ghost pic: Picture)
      requires Shows(pic, sink)
      modifies this, sink
      ensures Shows(Advance(format, pic, Stream(e)), sink)
    {
      var parsed := ParseStreamEvent(e);
      if parsed.None? { return; }
      var p := parsed.value;
      if sink != null { StreamEventChunks(p, sink, pic.open, pic.pieces); }
      if p.thinking != "" { thinkingChars := thinkingChars + |p.thinking|; }
      if p.text != "" {
        streamText := streamText + p.text;
        streamChars := streamChars + |p.text|;
      }
    }

    method HandleBlock(block: string, sink: ChunkSink?, ghost pieces: seq<Piece>)
      requires sink != null ==> Emitted(sink, pieces)
      modifies this`collected, this`seqNo, sink
      ensures collected == old(collected).(assistantText := AppendBlock(old(collected).assistantText, block))
      ensures sink == null ==> seqNo == old(seqNo)
      ensures sink != null ==>
        Emitted(sink, pieces + If(streamChars == 0 && !IsBlank(block), Piece(AnswerChunk, block, AssistantMessage)))
    {
      if IsBlank(block) { return; }
      var text := collected.assistantText;
      if text != "" { text := text + "\n"; }
      collected := collected.(assistantText := text + block);
      if sink != null && streamChars == 0 {
        Emit(sink, Piece(AnswerChunk, block, AssistantMessage), pieces);
      }
    }

    method HandleAssistant(content: seq<string>, error: Option<string>, sink: ChunkSink?, ghost pieces: seq<Piece>)
      requires sink != null ==> Emitted(sink, pieces)
      modifies this`collected, this`seqNo, sink
      ensures collected == CollectOne(old(collected), Assistant(content, error))
      ensures sink == null ==> seqNo == old(seqNo)
      ensures sink != null ==> Emitted(sink, pieces + if streamChars == 0 then BlockPieces(content) else [])
    {
      if error.Some? { collected := collected.(assistantErr := error.value); }
      ghost var start, done := collected, pieces;
      for i := 0 to |content|
        invariant collected == start.(assistantText := AppendBlocks(start.assistantText, content[..i]))
        invariant sink == null ==> seqNo == old(seqNo)
        invariant sink != null ==> Emitted(sink, done)
        invariant done == pieces + if streamChars == 0 then BlockPieces(content[..i]) else []
      {
        assert content[..i + 1][..i] == content[..i];
        HandleBlock(content[i], sink, done);
        done := done + If(streamChars == 0 && !IsBlank(content[i]), Piece(AnswerChunk, content[i], AssistantMessage));
      }
      assert content[..|content|] == content;
    }

    method HandleMessage(m: Message, sink: ChunkSink?, ghost pic: Picture)
      returns (outcome: Option<Common.Result<string, ProviderError>>)
      requires Shows(pic, sink)
      modifies this, sink
      ensures Shows(Advance(format, pic, m), sink)
      ensures outcome == if m.Result? then Some(Response(CollectOne(pic.collected, m), pic.streamText)) else None
    {
      outcome := None;
      if m.Stream? {
        HandleStreamEvent(m.event, sink, pic);
      } else if m.Assistant? {
        HandleAssistant(m.content, m.error, sink, pic.pieces);
      } else if m.Result? {
        collected := AfterResult(collected, m.subtype, m.isError, m.result);
        outcome := Some(Response(collected, streamText));
      }
    }

    /** What a failed read makes of the turn; the end of the file ends it like the end of the channel. */
    method HandleReceiveError(e: ReceiveError, lower: char -> char) returns (failure: Option<ProviderError>)
      ensures failure.None? <==> e.EndOfFile?
      ensures e.ContextEnded? ==> failure == Some(ContextDone)
      ensures e.OtherError? && IsInfix("interrupt", Lowered(e.text, lower)) ==> failure == Some(Interrupted(e.text))
      ensures e.OtherError? && !IsInfix("interrupt", Lowered(e.text, lower)) ==> failure == Some(ReceiveFailed(e.text))
      ensures failure.Some? ==> failure.value == FailureOf(e, lower)
    {
      match e {
        case ContextEnded => failure := Some(ContextDone);
        case EndOfFile => failure := None;
        case OtherError(text) =>
          var interrupted := IsInfix("interrupt", Lowered(text, lower));
          failure := Some(if interrupted then Interrupted(text) else ReceiveFailed(text));
      }
    }

    method EndTurn(item: Received, lower: char -> char, ghost response: Common.Result<string, ProviderError>)
      returns (r: Common.Result<string, ProviderError>)
      requires !item.Got? && response == Response(collected, streamText)
      ensures r == EndedBy(item, response, lower)
    {
      if item.TurnEnded? { return Err(ContextDone); }
      var failure := HandleReceiveError(item.error, lower);
      r := if failure.Some? then Err(failure.value) else Response(collected, streamText);
    }

    /** Reads up to the first result or failure, keeping the state at the picture of the messages read. */
    method ReadTurn(items: seq<Received>, lower: char -> char, sink: ChunkSink?, ghost picture: seq<Message> -> Picture)
      returns (r: Common.Result<string, ProviderError>, ghost read: seq<Message>)
      requires Shows(picture([]), sink)
      requires forall before, m :: picture(before + [m]) == Advance(format, picture(before), m)
      modifies this, sink
      ensures Shows(picture(read), sink)
      ensures IsTurn(items, read)
      ensures r == Ending(items, read, Response(picture(read).collected, picture(read).streamText), lower)
    {
      read := [];
      for i := 0 to |items|
        invariant |read| == i && Takes(items, read)
        invariant forall k | 0 <= k < i :: !read[k].Result?
        invariant Shows(picture(read), sink)
      {
        if !items[i].Got? {
          r := EndTurn(items[i], lower, Response(picture(read).collected, picture(read).streamText));
          return;
        }
        var outcome := HandleMessage(items[i].message, sink, picture(read));
        read := read + [items[i].message];
        if outcome.Some? { return outcome.value, read; }
      }
      r := Response(collected, streamText);
    }
  }

  /** The answer that the text of all the messages gives. */
  function ResponseTo(messages: seq<Message>): Common.Result<string, ProviderError> {
    Response(Collect(messages), Texts(PartsOf(messages)))
  }

  // ---- What a turn answers ----

  function BlocksOf(m: Message): seq<string> {
    if m.Assistant? then m.content else []
  }

  function AllBlocks(messages: seq<Message>): seq<string> {
    if messages == [] then [] else AllBlocks(messages[..|messages| - 1]) + BlocksOf(messages[|messages| - 1])
  }

  /** The lines one under another. */
  function Lines(blocks: seq<string>): string {
    if blocks == [] then ""
    else if |blocks| == 1 then blocks[0]
    else Lines(blocks[..|blocks| - 1]) + "\n" + blocks[|blocks| - 1]
  }

  lemma {:induction false} NonBlankLines(blocks: seq<string>)
    ensures Lines(NonBlank(blocks)) == "" <==> NonBlank(blocks) == []
  {
    if blocks != [] { NonBlankLines(blocks[..|blocks| - 1]); }
  }

  lemma LinesSnoc(blocks: seq<string>, line: string)
    ensures Lines(blocks + [line]) == if blocks == [] then line else Lines(blocks) + "\n" + line
  {
    assert (blocks + [line])[..|blocks|] == blocks;
  }

  lemma NonBlankSnoc(blocks: seq<string>, block: string)
    ensures NonBlank(blocks + [block]) == NonBlank(blocks) + IfNonBlank(block)
  {
    assert (blocks + [block])[..|blocks|] == blocks;
  }

  lemma AppendedLine(kept: seq<string>, block: string)
    requires Lines(kept) == "" <==> kept == []
    ensures AppendBlock(Lines(kept), block) == Lines(kept + IfNonBlank(block))
  {
    LinesSnoc(kept, block);
    assert kept + [] == kept;
  }

  lemma AppendedNext(all: seq<string>, text: string, block: string)
    requires text == Lines(NonBlank(all))
    ensures AppendBlock(text, block) == Lines(NonBlank(all + [block]))
  {
    NonBlankSnoc(all, block);
    NonBlankLines(all);
    AppendedLine(NonBlank(all), block);
  }

  lemma {:induction false} AppendedLines(before: seq<string>, blocks: seq<string>)
    ensures AppendBlocks(Lines(NonBlank(before)), blocks) == Lines(NonBlank(before + blocks))
    decreases |blocks|
  {
    if blocks == [] {
      assert before + blocks == before;
    } else {
      var n := |blocks| - 1;
      AppendedLines(before, blocks[..n]);
      AppendedNext(before + blocks[..n], AppendBlocks(Lines(NonBlank(before)), blocks[..n]), blocks[n]);
      assert before + blocks == before + blocks[..n] + [blocks[n]];
    }
  }

  /** What the assistant said in whole messages: its blocks that are not blank, one under another. */
  lemma {:induction false} SaidInMessages(messages: seq<Message>)
    ensures Collect(messages).assistantText == Lines(NonBlank(AllBlocks(messages)))
  {
    if messages == [] {
    } else {
      var before, m := messages[..|messages| - 1], messages[|messages| - 1];
      SaidInMessages(before);
      AppendedLines(AllBlocks(before), BlocksOf(m));
    }
  }

  /** The error is that of the last whole message that carries one. */
  lemma {:induction false} LastAssistantError(messages: seq<Message>, i: nat)
    requires i < |messages| && messages[i].Assistant? && messages[i].error.Some?
    requires forall j | i < j < |messages| :: messages[j].Assistant? ==> messages[j].error.None?
    ensures Collect(messages).assistantErr == messages[i].error.value
    decreases |messages|
  {
    if i < |messages| - 1 { LastAssistantError(messages[..|messages| - 1], i); }
  }

  lemma {:induction false} NoAssistantError(messages: seq<Message>)
    requires forall m | m in messages && m.Assistant? :: m.error.None?
    ensures Collect(messages).assistantErr == ""
  {
    if messages != [] { NoAssistantError(messages[..|messages| - 1]); }
  }

  lemma {:induction false} NoResultYet(messages: seq<Message>)
    requires forall i | 0 <= i < |messages| :: !messages[i].Result?
    ensures Collect(messages).resultText == "" && Collect(messages).resultErr == ""
  {
    if messages != [] { NoResultYet(messages[..|messages| - 1]); }
  }

  /** The turn's result, if it has one, states this text. */
  predicate States(messages: seq<Message>, text: string) {
    messages != [] && messages[|messages| - 1].Result?
    && messages[|messages| - 1].result == Some(text) && !IsBlank(text)
  }

  predicate FailsWith(messages: seq<Message>, subtype: string) {
    messages != [] && messages[|messages| - 1].Result?
    && messages[|messages| - 1].isError && messages[|messages| - 1].subtype == subtype
  }

  lemma ResultOfTurn(messages: seq<Message>)
    requires forall i | 0 <= i < |messages| - 1 :: !messages[i].Result?
    ensures forall text | States(messages, text) :: Collect(messages).resultText == text
    ensures (forall text :: !States(messages, text)) ==> Collect(messages).resultText == ""
    ensures (forall text :: !States(messages, text)) ==>
      forall subtype | FailsWith(messages, subtype) :: Collect(messages).resultErr == subtype
    ensures (forall subtype :: !FailsWith(messages, subtype)) ==> Collect(messages).resultErr == ""
  {
    if messages != [] {
      var before, m := messages[..|messages| - 1], messages[|messages| - 1];
      NoResultYet(before);
      if m.Result? {
        assert FailsWith(messages, m.subtype) <==> m.isError;
        if m.result.Some? { assert States(messages, m.result.value) <==> !IsBlank(m.result.value); }
      }
    }
  }

  /** A turn answers with the text of its result. */
  lemma TurnStates(messages: seq<Message>, text: string)
    requires forall i | 0 <= i < |messages| - 1 :: !messages[i].Result?
    requires States(messages, text)
    ensures ResponseTo(messages) == Ok(text)
  {
    ResultOfTurn(messages);
  }

  lemma AnswersWithout(c: Collected, said: string, streamed: string)
    requires IsBlank(c.resultText) && c.assistantText == said
    ensures !IsBlank(said) ==> Response(c, streamed) == Ok(TrimSpace(said))
    ensures IsBlank(said) && !IsBlank(streamed) ==> Response(c, streamed) == Ok(TrimSpace(streamed))
    ensures IsBlank(said) && IsBlank(streamed) ==> Response(c, streamed).Err?
  {
    TrimEmptyIff(said, IsSpace);
    TrimEmptyIff(streamed, IsSpace);
  }

  /** Without that it answers with what was said in whole messages, or else with what was streamed. */
  lemma TurnAnswers(messages: seq<Message>)
    requires forall i | 0 <= i < |messages| - 1 :: !messages[i].Result?
    requires forall text :: !States(messages, text)
    ensures var said, streamed := Lines(NonBlank(AllBlocks(messages))), TextFields(messages);
      && (!IsBlank(said) ==> ResponseTo(messages) == Ok(TrimSpace(said)))
      && (IsBlank(said) && !IsBlank(streamed) ==> ResponseTo(messages) == Ok(TrimSpace(streamed)))
      && (IsBlank(said) && IsBlank(streamed) ==> ResponseTo(messages).Err?)
  {
    ResultOfTurn(messages);
    SaidInMessages(messages);
    StreamedTextIs(messages);
    AnswersWithout(Collect(messages), Lines(NonBlank(AllBlocks(messages))), TextFields(messages));
  }

  /** Without any text the turn fails: with its result's error, or with the last whole message's, or for being empty. */
  lemma TurnFails(messages: seq<Message>)
    requires forall i | 0 <= i < |messages| - 1 :: !messages[i].Result?
    requires ResponseTo(messages).Err?
    ensures forall subtype | FailsWith(messages, subtype) && subtype != "" ::
      ResponseTo(messages) == Err(ResultError(subtype))
    ensures (forall subtype :: subtype != "" ==> !FailsWith(messages, subtype)) ==>
      ResponseTo(messages) == Err(if Collect(messages).assistantErr == "" then EmptyResponse
                                  else AssistantError(Collect(messages).assistantErr))
  {
    ResultOfTurn(messages);
    FailsOnlyWhenBlank(Collect(messages), Texts(PartsOf(messages)));
  }

  /** The turn gives its answer at a result, or when the messages end; a context that ended first fails it. */
  ghost predicate EndsWith(items: seq<Received>, read: seq<Message>, r: Common.Result<string, ProviderError>)
    requires |read| <= |items|
  {
    if (read != [] && read[|read| - 1].Result?) || |read| == |items| then r == ResponseTo(read)
    else
      && (items[|read|] == Failed(EndOfFile) ==> r == ResponseTo(read))
      && (items[|read|] == TurnEnded || items[|read|] == Failed(ContextEnded) ==> r == Err(ContextDone))
  }

  lemma EndingIs(items: seq<Received>, read: seq<Message>, lower: char -> char)
    requires |read| <= |items|
    ensures EndsWith(items, read, Ending(items, read, ResponseTo(read), lower))
  {
  }

  /** One chunk for each piece, with its kind, text and event, numbered from 1. */
  ghost predicate ShownInOrder(chunks: seq<StreamChunk>, pieces: seq<Piece>) {
    |chunks| == |pieces| && forall i | 0 <= i < |chunks| ::
      && chunks[i].kind == pieces[i].kind && chunks[i].text == pieces[i].text
      && chunks[i].eventType == pieces[i].eventType && chunks[i].seqNo == i + 1
  }

  lemma NumberedInOrder(pieces: seq<Piece>)
    ensures ShownInOrder(Numbered(pieces), pieces)
  {
  }

  /**
   * `read` are the messages a turn took: those up to the first result or failed read.  Its chunks are theirs,
   * numbered from 1; its answer is that of their text unless a read failed, or its context ended, before a result.
   */
  method AskStream(format: (string, string) -> string, lower: char -> char, items: seq<Received>, sink: ChunkSink?)
    returns (r: Common.Result<string, ProviderError>, ghost read: seq<Message>)
    requires sink != null ==> sink.chunks == []
    modifies sink
    ensures IsTurn(items, read)
    ensures r == Ending(items, read, ResponseTo(read), lower)
    ensures sink != null ==> sink.chunks == Numbered(Pieces(format, read))
    ensures EndsWith(items, read, r)
    ensures sink != null ==> ShownInOrder(sink.chunks, Pieces(format, read))
  {
    var state := new AskStreamState(format);
    ghost var picture := (before: seq<Message>) => PictureOf(format, before);
    NothingYet(format);
    forall before, m ensures picture(before + [m]) == Advance(format, picture(before), m) {
      AdvanceIsRight(format, before, m);
    }
    r, read := state.ReadTurn(items, lower, sink, picture);
    EndingIs(items, read, lower);
    NumberedInOrder(Pieces(format, read));
  }

  lemma ConcatFive<T>(s: seq<T>, a: seq<T>, b: seq<T>, c: seq<T>, d: seq<T>)
    ensures s + a + b + c + d == s + (a + b + c + d)
  {
  }
}
