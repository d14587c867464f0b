/**
 * The client chat hook (hooks/useChat.ts): its own code-only scanner
 * `detectAndCreateArtifacts`, the per-line handling of the "data: " lines of
 * the response stream, the updater that rewrites the last assistant message,
 * and the list effects of `sendMessage`.
 *
 * The hook's React state (`messages`, `isLoading`) is the class `ChatHook`;
 * a functional `setMessages` updater is applied to the field at the point
 * where the source queues it. The response is given as the list of decoded
 * chunks; `decode` stands for `JSON.parse` followed by the access to
 * `json.choices[0]?.delta?.content`: `None` when either throws, otherwise the
 * content field, itself `None` when it is absent.
 */
module UseChat {
  import opened Wrappers
  import opened Strings
  import opened Interfaces
  import opened CodeBlocks
  import opened Seqs
  import opened Fetch

  /** The artifact `detectAndCreateArtifacts` pushes for a match: the trimmed
      body, the language (default "plaintext") and the title
      "<language> Code Block". Its random id is not modelled. */
  function Detected(text: string, m: Match): Artifact
    requires IsMatch(text, m)
  {
    var language := Language(m);
    Artifact(Code, Trim(text[m.bodyStart..m.bodyEnd]), Some(Metadata(Some(language), Some(language + " Code Block"), None)))
  }

  /** The artifacts detected from `lastIndex == from` on. */
  function DetectFrom(text: string, from: nat): seq<Artifact>
    requires from <= |text|
    decreases |text| - from
  {
    match FindMatch(text, from)
    case None => []
    case Some(m) =>
      MatchIsInText(text, m);
      [Detected(text, m)] + DetectFrom(text, m.End())
  }

  function Detect(content: string): seq<Artifact> {
    DetectFrom(content, 0)
  }

  /** `detectAndCreateArtifacts`: a `while` loop over `regex.exec` that
      pushes one code artifact per match and nothing for the text between. */
  method DetectAndCreateArtifacts(content: string) returns (artifacts: seq<Artifact>)
    ensures artifacts == Detect(content)
  {
    artifacts := [];
    var lastIndex: nat := 0;
    var found := FindMatch(content, lastIndex);
    while found.Some?
      invariant lastIndex <= |content|
      invariant found == FindMatch(content, lastIndex)
      invariant artifacts + DetectFrom(content, lastIndex) == Detect(content)
      decreases |content| - lastIndex
    {
      var m := found.value;
      DetectLoopStep(content, lastIndex, artifacts);
      artifacts := artifacts + [Detected(content, m)];
      lastIndex := m.End();
      found := FindMatch(content, lastIndex);
    }
  }

  lemma DetectLoopStep(text: string, last: nat, done: seq<Artifact>)
    requires last <= |text| && FindMatch(text, last).Some?
    requires done + DetectFrom(text, last) == Detect(text)
    ensures var m := FindMatch(text, last).value;
      && last < m.End() <= |text|
      && (done + [Detected(text, m)]) + DetectFrom(text, m.End()) == Detect(text)
  {
    MatchIsInText(text, FindMatch(text, last).value);
  }

  /** The code artifacts of a list, in order. */
  function CodeOnly(arts: seq<Artifact>): (r: seq<Artifact>)
    ensures forall k | 0 <= k < |r| :: r[k].kind == Code
  {
    if arts == [] then []
    else (if arts[0].kind == Code then [arts[0]] else []) + CodeOnly(arts[1..])
  }

  /** An artifact with the title "<language> Code Block" added. */
  function Titled(a: Artifact): Artifact {
    match a.metadata
    case Some(Metadata(Some(language), _, description)) =>
      a.(metadata := Some(Metadata(Some(language), Some(language + " Code Block"), description)))
    case _ => a
  }

  function TitledAll(arts: seq<Artifact>): (r: seq<Artifact>)
    ensures |r| == |arts|
    ensures forall k | 0 <= k < |arts| :: r[k] == Titled(arts[k])
  {
    seq(|arts|, k requires 0 <= k < |arts| => Titled(arts[k]))
  }

  lemma {:induction false} CodeOnlyAppend(a: seq<Artifact>, b: seq<Artifact>)
    ensures CodeOnly(a + b) == CodeOnly(a) + CodeOnly(b)
  {
    if a == [] {
      assert a + b == b;
    } else {
      CodeOnlyAppend(a[1..], b);
      assert (a + b)[0] == a[0];
      assert (a + b)[1..] == a[1..] + b;
    }
  }

  /** One match's worth of `DetectFromIsTitledCode`, on plain values. */
  lemma TitledCodeStep(before: seq<Artifact>, code: Artifact, restExtracted: seq<Artifact>, restDetected: seq<Artifact>)
    requires CodeOnly(before) == [] && code.kind == Code
    requires restDetected == TitledAll(CodeOnly(restExtracted))
    ensures [Titled(code)] + restDetected == TitledAll(CodeOnly(before + [code] + restExtracted))
  {
    CodeOnlyAppend(before + [code], restExtracted);
    CodeOnlyAppend(before, [code]);
    assert CodeOnly([code]) == [code] by {
      assert [code][1..] == [];
    }
  }

  /** The hook's scanner finds exactly the code blocks the route's scanner
      finds, in the same order, with the same content and language, only
      titled and without the text between them. */
  lemma {:induction false} DetectFromIsTitledCode(text: string, last: nat)
    requires last <= |text|
    ensures DetectFrom(text, last) == TitledAll(CodeOnly(ExtractFrom(text, last)))
    decreases |text| - last
  {
    if FindMatch(text, last).Some? {
      var m := FindMatch(text, last).value;
      ExtractFromStep(text, last);
      DetectFromStep(text, last);
      DetectFromIsTitledCode(text, m.End());
      var before := if last < m.start then [TextArtifact(Trim(text[last..m.start]))] else [];
      assert Pushed(text, last, m) == before + [CodeArtifact(text, m)];
      assert CodeOnly(before) == [];
      TitledCodeStep(before, CodeArtifact(text, m), ExtractFrom(text, m.End()), DetectFrom(text, m.End()));
    }
  }

  lemma DetectFromStep(text: string, last: nat)
    requires last <= |text| && FindMatch(text, last).Some?
    ensures var m := FindMatch(text, last).value;
      && m.End() <= |text|
      && DetectFrom(text, last) == [Titled(CodeArtifact(text, m))] + DetectFrom(text, m.End())
  {
  }

  /** Every detected artifact is a code artifact titled after its (non-empty)
      language. */
  lemma DetectedAreTitledCode(text: string)
    ensures forall a | a in Detect(text) ::
      && a.kind == Code
      && a.metadata.Some? && a.metadata.value.language.Some? && a.metadata.value.language.value != []
      && a.metadata.value.title == Some(a.metadata.value.language.value + " Code Block")
  {
    DetectFromIsTitledCode(text, 0);
    ArtifactsAreTextOrCode(text);
    TitledCodeAreTitled(Extract(text));
  }

  /** Keeping the code artifacts of a list whose code artifacts all name a
      language, and titling them, gives titled code artifacts only. */
  lemma TitledCodeAreTitled(arts: seq<Artifact>)
    requires forall a | a in arts && a.kind == Code ::
      a.metadata.Some? && a.metadata.value.language.Some? && a.metadata.value.language.value != []
    ensures forall a | a in TitledAll(CodeOnly(arts)) ::
      && a.kind == Code
      && a.metadata.Some? && a.metadata.value.language.Some? && a.metadata.value.language.value != []
      && a.metadata.value.title == Some(a.metadata.value.language.value + " Code Block")
  {
    var code := CodeOnly(arts);
    forall a | a in TitledAll(code)
      ensures a.kind == Code
      ensures a.metadata.Some? && a.metadata.value.language.Some? && a.metadata.value.language.value != []
      ensures a.metadata.value.title == Some(a.metadata.value.language.value + " Code Block")
    {
      var k :| 0 <= k < |code| && a == TitledAll(code)[k];
      CodeOnlyIsSublist(arts, k);
    }
  }

  /** Each kept artifact comes from the input list. */
  lemma CodeOnlyIsSublist(arts: seq<Artifact>, k: nat)
    requires k < |CodeOnly(arts)|
    ensures CodeOnly(arts)[k] in arts
  {
    if arts[0].kind == Code && k == 0 {
    } else if arts[0].kind == Code {
      CodeOnlyIsSublist(arts[1..], k - 1);
    } else {
      CodeOnlyIsSublist(arts[1..], k);
    }
  }

  /** `JSON.parse` of a payload followed by `json.choices[0]?.delta?.content`:
      `None` when either throws, otherwise the (possibly absent) content. */
  type Decoder = string -> Option<DeltaContent>
  type DeltaContent = Option<string>

  const DataPrefix: string := "data: "

  /** The content one stream line contributes to `accumulatedContent`: none for
      a blank line, a line without the "data: " prefix, the "[DONE]" marker, a
      line that fails to parse, and an absent or empty content. */
  function LineContent(line: string, decode: Decoder): Option<string> {
    if Trim(line) == [] || !StartsWith(line, DataPrefix) then None
    else
      var jsonString := Trim(line[|DataPrefix|..]);
      if jsonString == "[DONE]" then None
      else
        match decode(jsonString)
        case None => None
        case Some(content) =>
          var text := content.GetOr("");
          if text == [] then None else Some(text)
  }

  /** Classification of a line: it contributes content exactly when it is a
      non-blank "data: " line whose payload is not "[DONE]", parses, and
      carries non-empty content, and then it contributes that content. */
  lemma LineContentCases(line: string, decode: Decoder)
    ensures IsBlank(line) ==> LineContent(line, decode) == None
    ensures !StartsWith(line, DataPrefix) ==> LineContent(line, decode) == None
    ensures StartsWith(line, DataPrefix) && Trim(line[|DataPrefix|..]) == "[DONE]" ==> LineContent(line, decode) == None
    ensures StartsWith(line, DataPrefix) && decode(Trim(line[|DataPrefix|..])).None? ==> LineContent(line, decode) == None
    ensures LineContent(line, decode).Some? ==>
      && LineContent(line, decode).value != []
      && decode(Trim(line[|DataPrefix|..])) == Some(Some(LineContent(line, decode).value))
  {
    TrimEmptyIffBlank(line);
    if StartsWith(line, DataPrefix) && Trim(line[|DataPrefix|..]) == "[DONE]" {
      assert LineContent(line, decode) == None;
    }
  }


  /** What one line contributes, as a list of at most one content. */
  function LineContribution(decode: Decoder): string -> seq<string> {
    line => OptionToSeq(LineContent(line, decode))
  }

  /** The contents the lines contribute, in order. */
  function LinesContents(lines: seq<string>, decode: Decoder): seq<string> {
    FlatMap(lines, LineContribution(decode))
  }

  /** A line that contributes nothing (for instance one that fails to parse)
      leaves the lines after it to be processed as usual. */
  lemma SkippedLineIsTransparent(before: seq<string>, line: string, after: seq<string>, decode: Decoder)
    requires LineContent(line, decode).None?
    ensures LinesContents(before + [line] + after, decode) == LinesContents(before, decode) + LinesContents(after, decode)
  {
    FlatMapSkip(before, line, after, LineContribution(decode));
  }

  /** What one read contributes: its lines, split on "\n". */
  function ChunkContribution(decode: Decoder): string -> seq<string> {
    chunk => LinesContents(Split(chunk, '\n'), decode)
  }

  /** The contents of all reads, each read split on "\n" with no carry-over
      of a partial last line into the next read. */
  function StreamContents(chunks: seq<string>, decode: Decoder): seq<string> {
    FlatMap(chunks, ChunkContribution(decode))
  }

  /** The inner loop's invariant survives one line. */
  lemma LineAdvance(before: seq<string>, lines: seq<string>, j: nat, decode: Decoder, contents: seq<string>)
    requires j < |lines| && contents == before + LinesContents(lines[..j], decode)
    ensures contents + OptionToSeq(LineContent(lines[j], decode)) == before + LinesContents(lines[..j + 1], decode)
  {
    FlatMapSnoc(lines, j, LineContribution(decode));
  }

  /** The outer loop's invariant survives one read. */
  lemma ChunkAdvance(chunks: seq<string>, i: nat, decode: Decoder, before: seq<string>, contents: seq<string>)
    requires i < |chunks| && before == StreamContents(chunks[..i], decode)
    requires contents == before + LinesContents(Split(chunks[i], '\n')[..|Split(chunks[i], '\n')|], decode)
    ensures contents == StreamContents(chunks[..i + 1], decode)
  {
    var lines := Split(chunks[i], '\n');
    assert lines[..|lines|] == lines;
    FlatMapSnoc(chunks, i, ChunkContribution(decode));
  }

  /** `artifacts.length > 0 ? artifacts : undefined`. */
  function ArtifactsField(arts: seq<Artifact>): Option<seq<Artifact>> {
    if |arts| > 0 then Some(arts) else None
  }

  /** The `setMessages` updater of the stream loop. */
  function ReplaceLast(prev: seq<Message>, accumulated: string): seq<Message> {
    if prev != [] && prev[|prev| - 1].role == Assistant then
      var last := prev[|prev| - 1];
      prev[..|prev| - 1] + [last.(content := accumulated, artifacts := ArtifactsField(Detect(accumulated)))]
    else prev
  }

  /** The updater rewrites only the last message, and only when it is an
      assistant message: that one keeps its id and role and gets the
      accumulated content and the detected artifacts (none when nothing is
      detected); every other message, and a list not ending with an assistant
      message, is unchanged. */
  lemma ReplaceLastFrame(prev: seq<Message>, accumulated: string)
    ensures var r := ReplaceLast(prev, accumulated);
      && |r| == |prev|
      && (forall k | 0 <= k < |prev| - 1 :: r[k] == prev[k])
      && (prev == [] || prev[|prev| - 1].role != Assistant ==> r == prev)
      && (prev != [] && prev[|prev| - 1].role == Assistant ==>
            && r[|r| - 1].id == prev[|prev| - 1].id
            && r[|r| - 1].role == Assistant
            && r[|r| - 1].content == accumulated
            && (Detect(accumulated) == [] ==> r[|r| - 1].artifacts == None)
            && (Detect(accumulated) != [] ==> r[|r| - 1].artifacts == Some(Detect(accumulated))))
  {
  }

  /** Only the latest update matters: the last message keeps being an
      assistant message, so a second update overwrites the first. */
  lemma ReplaceLastTwice(prev: seq<Message>, a: string, b: string)
    ensures ReplaceLast(ReplaceLast(prev, a), b) == ReplaceLast(prev, b)
  {
    if prev != [] && prev[|prev| - 1].role == Assistant {
      var once := ReplaceLast(prev, a);
      assert once[..|once| - 1] == prev[..|prev| - 1];
    }
  }

  /** The list after the stream has contributed `contents`. */
  function Streamed(prev: seq<Message>, contents: seq<string>): seq<Message> {
    if contents == [] then prev else ReplaceLast(prev, Concat(contents))
  }

  /** The request ends in the `catch` branch: the fetch rejects, the status is
      not ok, there is no body, or a read fails. */
  predicate Failed(fetched: FetchResult) {
    match fetched
    case NetworkFailure => true
    case Response(ok, body) => !ok || body.None? || body.value.readError
  }

  const ApologyText: string := "Sorry, there was an error processing your request."

  /** The contents the response stream contributes: those of its reads when
      the response is ok and has a body, none otherwise. */
  function BodyContents(fetched: FetchResult, decode: Decoder): seq<string> {
    if fetched.Response? && fetched.ok && fetched.body.Some?
    then StreamContents(fetched.body.value.chunks, decode)
    else []
  }

  /** The message list after `sendMessage(message)` whose stream contributed
      `contents`: the user message (id `userNow`) and the empty assistant
      placeholder (id `assistantNow + 1`) appended, the placeholder rewritten by the
      stream, and on failure an apology (id `errorNow`) appended after it. */
  function SendResult(prev: seq<Message>, message: string, userNow: int, assistantNow: int, errorNow: int,
                      fetched: FetchResult, contents: seq<string>): seq<Message>
  {
    var base := prev + [Message(userNow, User, message, None), Message(assistantNow + 1, Assistant, "", None)];
    var streamed := Streamed(base, contents);
    if Failed(fetched) then streamed + [Message(errorNow, Assistant, ApologyText, None)] else streamed
  }

  /** `sendMessage`'s effect on the list: the earlier messages stay; the user
      message and the placeholder follow in that order; the placeholder is
      never removed and ends with the accumulated content; an error appends
      the apology after it. */
  lemma SendResultShape(prev: seq<Message>, message: string, userNow: int, assistantNow: int, errorNow: int,
                        fetched: FetchResult, contents: seq<string>)
    ensures var r := SendResult(prev, message, userNow, assistantNow, errorNow, fetched, contents);
      && |r| == |prev| + 2 + (if Failed(fetched) then 1 else 0)
      && r[..|prev|] == prev
      && r[|prev|] == Message(userNow, User, message, None)
      && r[|prev| + 1].id == assistantNow + 1 && r[|prev| + 1].role == Assistant
      && r[|prev| + 1].content == Concat(contents)
      && (Failed(fetched) ==> r[|prev| + 2] == Message(errorNow, Assistant, ApologyText, None))
  {
    var base := prev + [Message(userNow, User, message, None), Message(assistantNow + 1, Assistant, "", None)];
    assert base[..|prev|] == prev;
    StreamedShape(base, contents);
  }

  /** One more content: the updater applied with the longer accumulated text
      gives the list for the longer contents. */
  lemma StreamedStep(prev: seq<Message>, contents: seq<string>, content: string)
    ensures ReplaceLast(Streamed(prev, contents), Concat(contents) + content) == Streamed(prev, contents + [content])
  {
    ConcatSnoc(contents, content);
    if contents != [] {
      ReplaceLastTwice(prev, Concat(contents), Concat(contents) + content);
    }
  }

  /** What handling one line does to the accumulated text and to the list
      agrees with adding its contribution to the contents. */
  lemma AccumulateStep(prev: seq<Message>, contents: seq<string>, c: Option<string>)
    ensures Concat(contents) + c.GetOr("") == Concat(contents + OptionToSeq(c))
    ensures (if c.Some? then ReplaceLast(Streamed(prev, contents), Concat(contents) + c.value) else Streamed(prev, contents))
         == Streamed(prev, contents + OptionToSeq(c))
  {
    if c.Some? {
      StreamedStep(prev, contents, c.value);
      ConcatSnoc(contents, c.value);
    } else {
      assert contents + [] == contents;
      assert Concat(contents) + "" == Concat(contents);
    }
  }

  /** The stream rewrites only the trailing assistant message, which keeps its
      id and ends with the concatenated contents. */
  lemma StreamedShape(base: seq<Message>, contents: seq<string>)
    requires base != [] && base[|base| - 1].role == Assistant && base[|base| - 1].content == ""
    ensures var r := Streamed(base, contents);
      && |r| == |base|
      && r[..|base| - 1] == base[..|base| - 1]
      && r[|base| - 1].id == base[|base| - 1].id
      && r[|base| - 1].role == Assistant
      && r[|base| - 1].content == Concat(contents)
  {
  }

  /** The hook's state. */
  class ChatHook {
    var messages: seq<Message>
    var isLoading: bool

    constructor()
      ensures messages == [] && !isLoading
    {
      messages := [];
      isLoading := false;
    }

    /** One turn of the `for (const line of lines)` loop: a line that
        contributes content extends the accumulated text and rewrites the last
        assistant message; any other line is skipped (`continue`). */
    method HandleLine(line: string, decode: Decoder, accumulatedContent: string) returns (accumulated: string)
      modifies this
      ensures isLoading == old(isLoading)
      ensures accumulated == accumulatedContent + LineContent(line, decode).GetOr("")
      ensures messages == if LineContent(line, decode).Some? then ReplaceLast(old(messages), accumulated) else old(messages)
    {
      accumulated := accumulatedContent;
      if Trim(line) == [] || !StartsWith(line, DataPrefix) {
        return;
      }
      var jsonString := Trim(line[|DataPrefix|..]);
      if jsonString == "[DONE]" {
        return;
      }
      var parsed := decode(jsonString);
      if parsed.None? {
        // the parse error is logged and the line skipped
        return;
      }
      var content := parsed.value.GetOr("");
      if content != [] {
        accumulated := accumulated + content;
        messages := ReplaceLast(messages, accumulated);
      }
    }

    /** `processStreamResponse` over a body whose reads are `chunks`: each
        read is split on "\n", each line handled on its own, and every
        non-empty content extends the accumulated text and rewrites the last
        assistant message. `ok` is false when a read fails after these. */
    method ProcessStreamResponse(chunks: seq<string>, readError: bool, decode: Decoder)
      returns (ok: bool)
      modifies this
      ensures ok == !readError
      ensures isLoading == old(isLoading)
      ensures messages == Streamed(old(messages), StreamContents(chunks, decode))
    {
      var accumulatedContent := "";
      ghost var contents: seq<string> := [];
      for i := 0 to |chunks|
        invariant isLoading == old(isLoading)
        invariant contents == StreamContents(chunks[..i], decode)
        invariant accumulatedContent == Concat(contents)
        invariant messages == Streamed(old(messages), contents)
      {
        var lines := Split(chunks[i], '\n');
        ghost var before := contents;
        for j := 0 to |lines|
          invariant isLoading == old(isLoading)
          invariant contents == before + LinesContents(lines[..j], decode)
          invariant accumulatedContent == Concat(contents)
          invariant messages == Streamed(old(messages), contents)
        {
          LineAdvance(before, lines, j, decode, contents);
          AccumulateStep(old(messages), contents, LineContent(lines[j], decode));
          accumulatedContent := HandleLine(lines[j], decode, accumulatedContent);
          contents := contents + OptionToSeq(LineContent(lines[j], decode));
        }
        ChunkAdvance(chunks, i, decode, before, contents);
      }
      assert chunks[..|chunks|] == chunks;
      ok := !readError;
    }

    /** `sendMessage(message)`: `userNow`, `assistantNow` and `errorNow` are
        the three `Date.now()` readings (for the user message, the
        placeholder and the apology), `fetched` the outcome of the request. */
    method SendMessage(message: string, userNow: int, assistantNow: int, errorNow: int, fetched: FetchResult,
                       decode: Decoder)
      modifies this
      ensures !isLoading
      ensures messages == SendResult(old(messages), message, userNow, assistantNow, errorNow, fetched, BodyContents(fetched, decode))
    {
      isLoading := true;
      var userMessage := Message(userNow, User, message, None);
      var assistantMessage := Message(assistantNow + 1, Assistant, "", None);
      messages := messages + [userMessage, assistantMessage];
      var failed := false;
      match fetched {
        case NetworkFailure =>
          failed := true;
        case Response(ok, body) =>
          if !ok {
            failed := true;
          } else if body.None? {
            failed := true;
          } else {
            var readOk := ProcessStreamResponse(body.value.chunks, body.value.readError, decode);
            failed := !readOk;
          }
      }
      if failed {
        messages := messages + [Message(errorNow, Assistant, ApologyText, None)];
      }
      isLoading := false;
    }
  }
}
