/**
 * The chat panel (components/GlobalChat/ChatInterface/ChatInterface.tsx):
 * `processStream`, which reads the route's newline-delimited JSON records and
 * rewrites the assistant placeholder by id on every `chunk` record, and
 * `handleSubmit`, which appends the user message and the placeholder, sends
 * the request and drops the placeholder again when the request fails.
 *
 * The component's React state (`messages`, `input`, `isLoading`) is the class
 * `ChatPanel`; each `setMessages` updater is applied where the source queues
 * it. `decode` stands for `JSON.parse` of one line: `None` when it throws (or
 * when the value has no `type` to read), otherwise the record's `type`,
 * `completeMessage` and `artifacts` fields. The random ids and the formatted
 * clock reading are parameters.
 */
module ChatInterface {
  import opened Wrappers
  import opened Strings
  import opened Interfaces
  import opened Seqs
  import opened Fetch

  /** A message of the panel: the shared message shape with a string id (a
      random UUID) and the time it was sent. */
  datatype ChatMessage = ChatMessage(id: string, role: Role, content: string, timestamp: string,
                                     artifacts: Option<seq<Artifact>>)

  /** One parsed record of the response stream. */
  datatype Record = Record(recordType: string, completeMessage: string, artifacts: Option<seq<Artifact>>)

  type RecordDecoder = string -> Option<Record>

  /** `line => line.trim()` used as a filter: the line is kept when it is not blank. */
  const KeepLine: string -> bool := line => Trim(line) != []

  /** `chunk.split("\n").filter((line) => line.trim())`. */
  function Lines(chunk: string): seq<string> {
    Filter(Split(chunk, '\n'), KeepLine)
  }

  /** The lines of a read are its non-blank "\n"-separated pieces, in order:
      none of them holds a newline or is blank, every non-blank piece is
      one of them as often as it occurs, and they keep the pieces' order. */
  lemma LinesShape(chunk: string)
    ensures forall k | 0 <= k < |Lines(chunk)| :: '\n' !in Lines(chunk)[k] && Trim(Lines(chunk)[k]) != []
    ensures forall piece | piece in Split(chunk, '\n') :: Trim(piece) != [] <==> piece in Lines(chunk)
    ensures IsSubsequence(Lines(chunk), Split(chunk, '\n'))
    ensures forall piece :: multiset(Lines(chunk))[piece] == if Trim(piece) != [] then multiset(Split(chunk, '\n'))[piece] else 0
  {
    var pieces := Split(chunk, '\n');
    FilterKept(pieces, KeepLine);
    FilterIsSubsequence(pieces, KeepLine);
    forall piece ensures multiset(Lines(chunk))[piece] == if Trim(piece) != [] then multiset(pieces)[piece] else 0 {
      FilterCount(pieces, KeepLine, piece);
    }
    forall k | 0 <= k < |Lines(chunk)| ensures '\n' !in Lines(chunk)[k] && Trim(Lines(chunk)[k]) != [] {
      assert KeepLine(Lines(chunk)[k]);
      FilterMembership(pieces, KeepLine, Lines(chunk)[k]);
    }
    forall piece | piece in pieces ensures Trim(piece) != [] <==> piece in Lines(chunk) {
      FilterMembership(pieces, KeepLine, piece);
    }
  }

  /** `data.type === "chunk"`. */
  predicate IsChunk(parsed: Option<Record>) {
    parsed.Some? && parsed.value.recordType == "chunk"
  }

  /** The updater of a `chunk` record: the message whose id is `messageId`
      takes the record's complete message and its artifacts (`[]` when
      absent); every other message is left as it is. */
  function ApplyChunk(prev: seq<ChatMessage>, messageId: string, record: Record): seq<ChatMessage> {
    seq(|prev|, k requires 0 <= k < |prev| =>
      if prev[k].id == messageId
      then prev[k].(content := record.completeMessage, artifacts := Some(record.artifacts.GetOr([])))
      else prev[k])
  }

  /** The update touches exactly the messages with that id, keeps the order,
      every id, role and timestamp, and sets the content and artifacts of the
      targeted ones. */
  lemma ApplyChunkFrame(prev: seq<ChatMessage>, messageId: string, record: Record)
    ensures var r := ApplyChunk(prev, messageId, record);
      && |r| == |prev|
      && (forall k | 0 <= k < |prev| ::
            && r[k].id == prev[k].id && r[k].role == prev[k].role && r[k].timestamp == prev[k].timestamp
            && (prev[k].id != messageId ==> r[k] == prev[k])
            && (prev[k].id == messageId ==>
                  r[k].content == record.completeMessage && r[k].artifacts == Some(record.artifacts.GetOr([]))))
  {
  }

  /** A later record overrides an earlier one: each carries the whole
      message so far. */
  lemma ApplyChunkTwice(prev: seq<ChatMessage>, messageId: string, first: Record, second: Record)
    ensures ApplyChunk(ApplyChunk(prev, messageId, first), messageId, second) == ApplyChunk(prev, messageId, second)
  {
  }

  /** A record addressed to an id no message has changes nothing. */
  lemma ApplyChunkAbsent(prev: seq<ChatMessage>, messageId: string, record: Record)
    requires forall k | 0 <= k < |prev| :: prev[k].id != messageId
    ensures ApplyChunk(prev, messageId, record) == prev
  {
  }

  /** The `chunk` records of one line (none when it fails to parse or has
      another type). */
  function ChunkOf(parsed: Option<Record>): seq<Record> {
    if IsChunk(parsed) then [parsed.value] else []
  }

  function LineRecords(decode: RecordDecoder): string -> seq<Record> {
    line => ChunkOf(decode(line))
  }

  /** The `chunk` records of one read. */
  function ReadRecords(chunk: string, decode: RecordDecoder): seq<Record> {
    FlatMap(Lines(chunk), LineRecords(decode))
  }

  function ChunkRecords(decode: RecordDecoder): string -> seq<Record> {
    chunk => ReadRecords(chunk, decode)
  }

  /** The `chunk` records of the whole stream, read by read. A line that a
      read boundary cuts in two is parsed as two lines. */
  function StreamRecords(chunks: seq<string>, decode: RecordDecoder): seq<Record> {
    FlatMap(chunks, ChunkRecords(decode))
  }

  /** The list after the updaters of `records` for `messageId`. */
  function Applied(prev: seq<ChatMessage>, messageId: string, records: seq<Record>): seq<ChatMessage> {
    if records == [] then prev else ApplyChunk(prev, messageId, records[|records| - 1])
  }

  /** Applying one more record is applying it to the list so far. */
  lemma AppliedStep(prev: seq<ChatMessage>, messageId: string, records: seq<Record>, next: seq<Record>)
    requires |next| <= 1
    ensures Applied(prev, messageId, records + next)
         == if next == [] then Applied(prev, messageId, records) else ApplyChunk(Applied(prev, messageId, records), messageId, next[0])
  {
    if next == [] {
      assert records + next == records;
    } else if records != [] {
      ApplyChunkTwice(prev, messageId, records[|records| - 1], next[0]);
    }
  }

  /** The inner loop's invariant survives one line. */
  lemma LineAdvance(before: seq<Record>, lines: seq<string>, j: nat, decode: RecordDecoder, records: seq<Record>)
    requires j < |lines| && records == before + FlatMap(lines[..j], LineRecords(decode))
    ensures records + LineRecords(decode)(lines[j]) == before + FlatMap(lines[..j + 1], LineRecords(decode))
  {
    FlatMapSnoc(lines, j, LineRecords(decode));
  }

  /** The outer loop's invariant survives one read. */
  lemma ChunkAdvance(chunks: seq<string>, i: nat, decode: RecordDecoder, before: seq<Record>, records: seq<Record>)
    requires i < |chunks| && before == StreamRecords(chunks[..i], decode)
    requires records == before + FlatMap(Lines(chunks[i])[..|Lines(chunks[i])|], LineRecords(decode))
    ensures records == StreamRecords(chunks[..i + 1], decode)
  {
    var lines := Lines(chunks[i]);
    assert lines[..|lines|] == lines;
    assert ChunkRecords(decode)(chunks[i]) == ReadRecords(chunks[i], decode);
    FlatMapStep(chunks, i, ChunkRecords(decode), before, records);
  }

  /** `prev.filter((msg) => msg.id !== botMessageId)`. */
  function RemoveById(prev: seq<ChatMessage>, messageId: string): seq<ChatMessage> {
    Filter(prev, (m: ChatMessage) => m.id != messageId)
  }

  /** Removing by id drops every message with that id and keeps every other
      one, in order. */
  lemma RemoveByIdSpec(prev: seq<ChatMessage>, messageId: string, m: ChatMessage)
    ensures m in RemoveById(prev, messageId) <==> m in prev && m.id != messageId
  {
    FilterMembership(prev, (m: ChatMessage) => m.id != messageId, m);
  }

  /** Removing the id of a message that was just appended behind messages
      with other ids gives back the list without it. */
  lemma RemoveAppended(prev: seq<ChatMessage>, last: ChatMessage)
    requires forall k | 0 <= k < |prev| :: prev[k].id != last.id
    ensures RemoveById(prev + [last], last.id) == prev
  {
    var keep := (m: ChatMessage) => m.id != last.id;
    FilterAppend(prev, [last], keep);
    FilterAll(prev, keep);
    assert Filter([last], keep) == [] by {
      assert [last][1..] == [];
    }
  }

  /** The request ends in `handleSubmit`'s `catch`: the fetch rejects, the
      status is not ok or there is no body. A failing read is caught inside
      `processStream` and does not count. */
  predicate Rejected(fetched: FetchResult) {
    match fetched
    case NetworkFailure => true
    case Response(ok, body) => !ok || body.None?
  }

  /** The records the response stream yields: those of its reads when the
      request was not rejected, none otherwise. */
  function BodyRecords(fetched: FetchResult, decode: RecordDecoder): seq<Record> {
    if fetched.Response? && fetched.ok && fetched.body.Some?
    then StreamRecords(fetched.body.value.chunks, decode)
    else []
  }

  /** The message list after a submission of `text` (already trimmed): the
      user message and the empty assistant placeholder appended, then either
      the placeholder removed again (rejected request) or the stream's
      records applied to it. */
  function Submitted(prev: seq<ChatMessage>, text: string, userId: string, botId: string, timestamp: string,
                     fetched: FetchResult, records: seq<Record>): seq<ChatMessage>
  {
    var base := prev + [ChatMessage(userId, User, text, timestamp, None), ChatMessage(botId, Assistant, "", timestamp, None)];
    if Rejected(fetched) then RemoveById(base, botId) else Applied(base, botId, records)
  }

  /** A rejected request leaves exactly the user message behind, as long as
      the placeholder's id is new. */
  lemma RejectedLeavesUserMessage(prev: seq<ChatMessage>, text: string, userId: string, botId: string,
                                  timestamp: string, fetched: FetchResult, records: seq<Record>)
    requires Rejected(fetched)
    requires userId != botId && forall k | 0 <= k < |prev| :: prev[k].id != botId
    ensures Submitted(prev, text, userId, botId, timestamp, fetched, records)
         == prev + [ChatMessage(userId, User, text, timestamp, None)]
  {
    var user := ChatMessage(userId, User, text, timestamp, None);
    var bot := ChatMessage(botId, Assistant, "", timestamp, None);
    assert prev + [user, bot] == (prev + [user]) + [bot];
    RemoveAppended(prev + [user], bot);
  }

  /** An accepted request keeps the placeholder, last, with the complete
      message of the last `chunk` record ("" when there was none); the
      earlier messages and the user message are untouched. */
  lemma AcceptedKeepsPlaceholder(prev: seq<ChatMessage>, text: string, userId: string, botId: string,
                                 timestamp: string, fetched: FetchResult, records: seq<Record>)
    requires !Rejected(fetched)
    requires userId != botId && forall k | 0 <= k < |prev| :: prev[k].id != botId
    ensures var r := Submitted(prev, text, userId, botId, timestamp, fetched, records);
      && |r| == |prev| + 2
      && r[..|prev| + 1] == prev + [ChatMessage(userId, User, text, timestamp, None)]
      && r[|prev| + 1].id == botId && r[|prev| + 1].role == Assistant
      && r[|prev| + 1].content == (if records == [] then "" else records[|records| - 1].completeMessage)
  {
    var user := ChatMessage(userId, User, text, timestamp, None);
    var base := prev + [user, ChatMessage(botId, Assistant, "", timestamp, None)];
    if records != [] {
      ApplyChunkFrame(base, botId, records[|records| - 1]);
    }
  }

  /** A read that fails part-way changes nothing beyond stopping the stream:
      the result is that of a stream that ended there. */
  lemma ReadErrorKeepsPlaceholder(prev: seq<ChatMessage>, text: string, userId: string, botId: string,
                                  timestamp: string, chunks: seq<string>, decode: RecordDecoder)
    ensures var failing, clean := Response(true, Some(StreamBody(chunks, true))), Response(true, Some(StreamBody(chunks, false)));
      && !Rejected(failing)
      && BodyRecords(failing, decode) == BodyRecords(clean, decode)
      && Submitted(prev, text, userId, botId, timestamp, failing, BodyRecords(failing, decode))
         == Submitted(prev, text, userId, botId, timestamp, clean, BodyRecords(clean, decode))
  {
  }

  /** The panel's state. */
  class ChatPanel {
    var messages: seq<ChatMessage>
    var input: string
    var isLoading: bool

    constructor()
      ensures messages == [] && input == [] && !isLoading
    {
      messages := [];
      input := [];
      isLoading := false;
    }

    /** One turn of the `for (const line of lines)` loop: a `chunk` record
        rewrites the placeholder; a line that fails to parse or has another
        type is skipped. */
    method HandleLine(line: string, messageId: string, decode: RecordDecoder)
      modifies this
      ensures input == old(input) && isLoading == old(isLoading)
      ensures messages == if IsChunk(decode(line)) then ApplyChunk(old(messages), messageId, decode(line).value) else old(messages)
    {
      var data := decode(line);
      if data.None? {
        // the parse error is logged and the line skipped
        return;
      }
      if data.value.recordType == "chunk" {
        messages := ApplyChunk(messages, messageId, data.value);
      }
    }

    /** `processStream(reader, messageId)` over a body whose reads are
        `chunks`: every `chunk` record rewrites the message `messageId`; a
        read error after these is logged; either way `isLoading` ends false. */
    method ProcessStream(chunks: seq<string>, readError: bool, messageId: string, decode: RecordDecoder)
      modifies this
      ensures input == old(input) && !isLoading
      ensures messages == Applied(old(messages), messageId, StreamRecords(chunks, decode))
    {
      ghost var records: seq<Record> := [];
      for i := 0 to |chunks|
        invariant input == old(input)
        invariant records == StreamRecords(chunks[..i], decode)
        invariant messages == Applied(old(messages), messageId, records)
      {
        var lines := Lines(chunks[i]);
        ghost var before := records;
        for j := 0 to |lines|
          invariant input == old(input)
          invariant records == before + FlatMap(lines[..j], LineRecords(decode))
          invariant messages == Applied(old(messages), messageId, records)
        {
          LineAdvance(before, lines, j, decode, records);
          AppliedStep(old(messages), messageId, records, LineRecords(decode)(lines[j]));
          HandleLine(lines[j], messageId, decode);
          records := records + LineRecords(decode)(lines[j]);
        }
        ChunkAdvance(chunks, i, decode, before, records);
      }
      assert chunks[..|chunks|] == chunks;
      // a read error is caught and logged; `finally` clears the flag
      isLoading := false;
    }

    /** `handleSubmit`: nothing happens for a blank input or while a reply
        is loading; otherwise the trimmed input is sent as the user message
        with id `userId`, the placeholder gets id `botId`, both stamped with
        `timestamp`, and `fetched` is the outcome of the request. */
    method HandleSubmit(userId: string, botId: string, timestamp: string, fetched: FetchResult, decode: RecordDecoder)
      modifies this
      ensures Trim(old(input)) == [] || old(isLoading) ==>
        messages == old(messages) && input == old(input) && isLoading == old(isLoading)
      ensures Trim(old(input)) != [] && !old(isLoading) ==>
        && input == [] && !isLoading
        && messages == Submitted(old(messages), Trim(old(input)), userId, botId, timestamp, fetched, BodyRecords(fetched, decode))
    {
      if Trim(input) == [] || isLoading {
        return;
      }
      var userMessage := ChatMessage(userId, User, Trim(input), timestamp, None);
      var botMessage := ChatMessage(botId, Assistant, "", timestamp, None);
      messages := messages + [userMessage, botMessage];
      input := [];
      isLoading := true;
      match fetched {
        case NetworkFailure =>
          messages := RemoveById(messages, botId);
          isLoading := false;
        case Response(ok, body) =>
          if !ok || body.None? {
            messages := RemoveById(messages, botId);
            isLoading := false;
          } else {
            ProcessStream(body.value.chunks, body.value.readError, botId, decode);
          }
      }
    }
  }
}
