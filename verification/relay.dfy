/**
 * The streaming relay of the chat route (`POST` and `makeIterator` in
 * app/api/chat/openai/route.ts). The vendor stream is a list of deltas, each
 * the `choices[0]?.delta?.content` of one vendor chunk (absent when the chunk
 * has none). Every non-empty delta is appended to the running message and
 * produces a `chunk` event carrying the message so far and its artifacts; one
 * `done` event closes the stream.
 *
 * `Relay` is the left fold over the deltas, `MakeIterator` the `for await`
 * loop that builds the same events, and `Post` the route handler: the event
 * stream, or the JSON error body when the vendor call fails.
 */
module ChatRoute {
  import opened Wrappers
  import opened Strings
  import opened Interfaces
  import opened CodeBlocks

  /** One newline-delimited JSON record of the response stream. */
  datatype StreamEvent =
    | Chunk(content: string, completeMessage: string, artifacts: seq<Artifact>)
    | Done(completeMessage: string, artifacts: seq<Artifact>)

  /** `if (content)`: present and not the empty string. */
  predicate Truthy(delta: Option<string>) {
    delta.Some? && delta.value != []
  }

  /** The contents of the truthy deltas, in order. */
  function Contents(deltas: seq<Option<string>>): (r: seq<string>)
    ensures |r| <= |deltas|
    ensures forall k | 0 <= k < |r| :: r[k] != []
  {
    if deltas == [] then []
    else if Truthy(deltas[0]) then [deltas[0].value] + Contents(deltas[1..])
    else Contents(deltas[1..])
  }

  /** The events still to come when the running message is `complete` and
      `currentArtifacts` is `current`. */
  function RelayFrom(deltas: seq<Option<string>>, complete: string, current: seq<Artifact>): seq<StreamEvent> {
    if deltas == [] then [Done(complete, current)]
    else if Truthy(deltas[0]) then
      var message := complete + deltas[0].value;
      var artifacts := Extract(message);
      [Chunk(deltas[0].value, message, artifacts)] + RelayFrom(deltas[1..], message, artifacts)
    else RelayFrom(deltas[1..], complete, current)
  }

  /** The whole event stream: `completeMessage` starts as "" and
      `currentArtifacts` as []. */
  function Relay(deltas: seq<Option<string>>): seq<StreamEvent> {
    RelayFrom(deltas, "", [])
  }

  /** `makeIterator`, as the source writes it: a loop over the vendor chunks
      that extends the message and rescans it on every truthy delta, then
      the closing `done` event. */
  method MakeIterator(deltas: seq<Option<string>>) returns (events: seq<StreamEvent>)
    ensures events == Relay(deltas)
  {
    var completeMessage: string := "";
    var currentArtifacts: seq<Artifact> := [];
    events := [];
    for i := 0 to |deltas|
      invariant events + RelayFrom(deltas[i..], completeMessage, currentArtifacts) == Relay(deltas)
    {
      assert deltas[i..][1..] == deltas[i + 1..];
      var content := deltas[i];
      if Truthy(content) {
        completeMessage := completeMessage + content.value;
        currentArtifacts := ExtractCodeBlocks(completeMessage);
        events := events + [Chunk(content.value, completeMessage, currentArtifacts)];
      }
    }
    assert deltas[|deltas|..] == [];
    events := events + [Done(completeMessage, currentArtifacts)];
  }

  lemma ConcatPrefixStep(v: string, rest: seq<string>, k: nat)
    requires k <= |rest|
    ensures Concat(([v] + rest)[..k + 1]) == v + Concat(rest[..k])
  {
    assert ([v] + rest)[..k + 1] == [v] + rest[..k];
    assert ([v] + rest[..k])[1..] == rest[..k];
  }

  /** `e` is the chunk event of the k-th truthy delta when the message was
      `complete` before the first of them (its artifacts aside). */
  predicate IsChunkOf(e: StreamEvent, complete: string, pieces: seq<string>, k: nat)
    requires k < |pieces|
  {
    e.Chunk? && e.content == pieces[k] && e.completeMessage == complete + Concat(pieces[..k + 1])
  }

  /** The texts of the stream from any point on: a chunk per truthy delta with
      the running message, then one `done` with the whole message. */
  lemma {:induction false} RelayFromTexts(deltas: seq<Option<string>>, complete: string, current: seq<Artifact>)
    ensures var pieces, events := Contents(deltas), RelayFrom(deltas, complete, current);
      && |events| == |pieces| + 1
      && events[|pieces|].Done? && events[|pieces|].completeMessage == complete + Concat(pieces)
      && forall k | 0 <= k < |pieces| :: IsChunkOf(events[k], complete, pieces, k)
    decreases |deltas|
  {
    if deltas == [] {
      assert complete + [] == complete;
    } else if Truthy(deltas[0]) {
      var v := deltas[0].value;
      var message := complete + v;
      var artifacts := Extract(message);
      RelayFromTexts(deltas[1..], message, artifacts);
      var rest := Contents(deltas[1..]);
      assert Contents(deltas) == [v] + rest;
      ConsTexts(complete, v, rest, Chunk(v, message, artifacts), RelayFrom(deltas[1..], message, artifacts));
    } else {
      RelayFromTexts(deltas[1..], complete, current);
    }
  }

  /** The step of `RelayFromTexts` for a truthy delta `v`. */
  lemma ConsTexts(complete: string, v: string, rest: seq<string>, head: StreamEvent, tail: seq<StreamEvent>)
    requires head.Chunk? && head.content == v && head.completeMessage == complete + v
    requires |tail| == |rest| + 1
    requires tail[|rest|].Done? && tail[|rest|].completeMessage == complete + v + Concat(rest)
    requires forall k | 0 <= k < |rest| :: IsChunkOf(tail[k], complete + v, rest, k)
    ensures var pieces, events := [v] + rest, [head] + tail;
      && |events| == |pieces| + 1
      && events[|pieces|].Done? && events[|pieces|].completeMessage == complete + Concat(pieces)
      && forall k | 0 <= k < |pieces| :: IsChunkOf(events[k], complete, pieces, k)
  {
    var pieces, events := [v] + rest, [head] + tail;
    assert Concat(pieces) == v + Concat(rest) by {
      assert pieces[1..] == rest;
    }
    assert complete + v + Concat(rest) == complete + Concat(pieces);
    forall k | 0 <= k < |pieces| ensures IsChunkOf(events[k], complete, pieces, k) {
      ConcatPrefixStep(v, rest, k);
      if k == 0 {
        assert rest[..0] == [];
        assert complete + (v + []) == complete + v;
      } else {
        assert events[k] == tail[k - 1];
        assert rest[..k] == rest[..(k - 1) + 1];
        assert complete + v + Concat(rest[..k]) == complete + (v + Concat(rest[..k]));
      }
    }
  }

  /** The event carries the artifacts of its own `completeMessage`. */
  predicate ScannedItself(e: StreamEvent) {
    e.artifacts == Extract(e.completeMessage)
  }

  /** Every event carries the artifacts of its own `completeMessage`, as
      long as the current artifacts start as those of the running message. */
  lemma {:induction false} RelayFromArtifacts(deltas: seq<Option<string>>, complete: string, current: seq<Artifact>)
    requires current == Extract(complete)
    ensures forall k | 0 <= k < |RelayFrom(deltas, complete, current)| ::
      ScannedItself(RelayFrom(deltas, complete, current)[k])
    decreases |deltas|
  {
    if deltas != [] {
      if Truthy(deltas[0]) {
        var message := complete + deltas[0].value;
        RelayFromArtifacts(deltas[1..], message, Extract(message));
        var tail := RelayFrom(deltas[1..], message, Extract(message));
        var events := RelayFrom(deltas, complete, current);
        assert events == [Chunk(deltas[0].value, message, Extract(message))] + tail;
        forall k | 1 <= k < |events| ensures events[k] == tail[k - 1] { }
      } else {
        RelayFromArtifacts(deltas[1..], complete, current);
      }
    }
  }

  /** The relay's contract: one `chunk` per truthy delta, in order, the k-th
      carrying that delta, the concatenation of the truthy deltas so far and
      the artifacts of that text; then exactly one `done`, last, carrying the
      full concatenation and its artifacts. */
  lemma RelayShape(deltas: seq<Option<string>>)
    ensures var pieces, events := Contents(deltas), Relay(deltas);
      && |events| == |pieces| + 1
      && (forall k | 0 <= k < |pieces| ::
            && events[k].Chunk? && events[k].content == pieces[k]
            && events[k].completeMessage == Concat(pieces[..k + 1]))
      && events[|pieces|].Done? && events[|pieces|].completeMessage == Concat(pieces)
      && (forall k | 0 <= k < |events| :: ScannedItself(events[k]))
  {
    var pieces := Contents(deltas);
    RelayFromTexts(deltas, "", []);
    RelayFromArtifacts(deltas, "", []);
    assert "" + Concat(pieces) == Concat(pieces);
    forall k | 0 <= k < |pieces|
      ensures Relay(deltas)[k].completeMessage == Concat(pieces[..k + 1])
    {
      assert IsChunkOf(Relay(deltas)[k], "", pieces, k);
      assert "" + Concat(pieces[..k + 1]) == Concat(pieces[..k + 1]);
    }
  }

  /** Exactly one `done` event, and it is the last one. */
  lemma OneDoneLast(deltas: seq<Option<string>>)
    ensures var events := Relay(deltas);
      && |events| >= 1 && events[|events| - 1].Done?
      && forall k | 0 <= k < |events| - 1 :: events[k].Chunk?
  {
    RelayShape(deltas);
  }

  /** A stream without any truthy delta is a single `done` with empty text
      and no artifacts. */
  lemma NoContentIsEmptyDone(deltas: seq<Option<string>>)
    requires forall k | 0 <= k < |deltas| :: !Truthy(deltas[k])
    ensures Relay(deltas) == [Done("", [])]
  {
    RelayShape(deltas);
    NoTruthyNoContents(deltas);
  }

  lemma {:induction false} NoTruthyNoContents(deltas: seq<Option<string>>)
    requires forall k | 0 <= k < |deltas| :: !Truthy(deltas[k])
    ensures Contents(deltas) == []
    decreases |deltas|
  {
    if deltas != [] {
      assert !Truthy(deltas[0]);
      NoTruthyNoContents(deltas[1..]);
    }
  }

  /** What the vendor call produced: a failure (an `Error` with its message,
      or any other thrown value shown with `String(error)`), or a stream of
      deltas. */
  datatype Thrown = ErrorObject(message: string) | OtherValue(shown: string)
  datatype Upstream = Failed(error: Thrown) | Streamed(deltas: seq<Option<string>>)

  datatype Response =
    | EventStream(events: seq<StreamEvent>)
    | JsonError(status: nat, error: string, details: string)

  /** The route handler: the relayed stream, or a 500 with a fixed error text
      and the error's details. */
  function Post(upstream: Upstream): (r: Response)
    ensures upstream.Streamed? <==> r.EventStream?
    ensures upstream.Streamed? ==> r.events == Relay(upstream.deltas)
    ensures upstream.Failed? ==>
      && r.status == 500 && r.error == "Error processing your request"
      && r.details == (match upstream.error case ErrorObject(m) => m case OtherValue(s) => s)
  {
    match upstream
    case Streamed(deltas) => EventStream(Relay(deltas))
    case Failed(e) =>
      var details := match e case ErrorObject(m) => m case OtherValue(s) => s;
      JsonError(500, "Error processing your request", details)
  }
}
