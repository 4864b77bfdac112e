/** What a transcript file stores, line by line, and what a queued record holds in memory. */
module Records {
  import opened Options

  /** A JSON value the transcript never looks inside, given by its text. */
  type Json = string

  /** Line 0 of a transcript. `continuesFrom` links a session to the one it carries on. */
  datatype Header = Header(agent: string, sessionId: string, cwd: string, startedAt: nat,
                           continuesFrom: Option<string>)

  datatype Usage = Usage(input: nat, output: nat, cacheWrite: nat, cacheRead: nat)

  /** One block of a message turn, as the history reader shows it. */
  datatype Block =
    | Text(text: string)
    | Thinking(thought: string)
    | Image(image: Json)
    | ToolUse(useId: string, name: string, input: Option<string>, meta: Option<Json>)
    | ToolResult(resultId: string, output: Option<string>, isError: bool, images: seq<Json>)

  datatype ChunkKind = Message | Thought

  /** The payload of a plain-text agent chunk. `rest` stands for every other field of it. */
  datatype Chunk = Chunk(kind: ChunkKind, meta: Option<Json>, messageId: Option<Json>,
                         text: string, rest: Json)

  /** A user chunk is streamed prose or one attachment, already rendered as its block. */
  datatype UserInput = Prose(prose: string) | Attachment(block: Block)

  datatype ToolFields = ToolFields(id: string, title: Option<string>, input: Option<string>,
                                   output: Option<string>, images: seq<Json>, failed: bool,
                                   meta: Option<Json>)

  /** A `session/update`. */
  datatype Payload =
    | TextChunk(chunk: Chunk)
    | ImageChunk(image: Json)
      // An agent chunk whose content is not plain text, by the text it projects to.
    | ProjectedChunk(kind: ChunkKind, text: string)
      // `None` for content nothing renders, such as audio.
    | UserChunk(input: Option<UserInput>)
    | ToolCall(call: ToolFields)
    | ToolCallUpdate(call: ToolFields)
    | Plan(todos: string)
      // Updates that describe no turn, and updates of a newer schema.
    | Ignored

  /** What the prompt response reports at the end of a turn. */
  datatype Report = Report(duration: Option<nat>, model: Option<string>, usage: Option<Usage>)

  datatype Entry =
    | Prompt(t: nat, blocks: seq<Block>, steer: bool)
    | TurnEnd(t: nat, report: Report)
    | Update(t: nat, payload: Payload)

  datatype Record = HeaderLine(header: Header) | EntryLine(entry: Entry)

  /** Records that never wait for a flush window. */
  predicate IsBoundary(r: Record) { r.HeaderLine? || !r.entry.Update? }
}
