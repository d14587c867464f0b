/**
 * The fenced-code-block scanner of the chat relay (`extractCodeBlocks` in
 * app/api/chat/openai/route.ts). It runs the global regular expression
 *
 *     /```(\w+)?\n([\s\S]*?)```/g
 *
 * over the accumulated assistant text and turns the matches and the text
 * between them into an ordered list of `text` and `code` artifacts.
 *
 * The regular expression is modelled exactly: `MatchAt` decides whether a
 * match starts at a position, `FindMatch` is one `exec` call from
 * `lastIndex`, `SegmentsFrom` is the tokenisation the loop walks through and
 * `ExtractFrom` the artifact list it builds. `ExtractCodeBlocks` is the loop
 * itself. `Scans` is a declarative description of a correct tokenisation,
 * proved to hold of `SegmentsFrom` and to determine it uniquely.
 */
module CodeBlocks {
  import opened Wrappers
  import opened Strings
  import opened Interfaces

  /** Three backticks start at index `j`. */
  predicate FenceAt(text: string, j: int) {
    0 <= j && j + 3 <= |text| && text[j] == '`' && text[j + 1] == '`' && text[j + 2] == '`'
  }

  /** The end of the maximal run of word characters starting at `k` (greedy `\w+`). */
  function WordRunEnd(text: string, k: nat): (e: nat)
    requires k <= |text|
    ensures k <= e <= |text|
    ensures forall j | k <= j < e :: IsWordChar(text[j])
    ensures e == |text| || !IsWordChar(text[e])
    decreases |text| - k
  {
    if k < |text| && IsWordChar(text[k]) then WordRunEnd(text, k + 1) else k
  }

  /** The first fence at or after `k` (where the lazy body `[\s\S]*?` stops). */
  function NextFence(text: string, k: nat): (r: Option<nat>)
    requires k <= |text|
    ensures r.Some? ==> k <= r.value && FenceAt(text, r.value)
    ensures r.Some? ==> forall j | k <= j < r.value :: !FenceAt(text, j)
    ensures r.None? ==> forall j | k <= j :: !FenceAt(text, j)
    decreases |text| - k
  {
    if k + 3 > |text| then None
    else if FenceAt(text, k) then Some(k)
    else NextFence(text, k + 1)
  }

  /**
   * One match of the pattern: the opening fence at `start`, the language word
   * `lang` right after it, a line feed, the body `text[bodyStart..bodyEnd]` and
   * the closing fence at `bodyEnd`.
   */
  datatype Match = Match(start: nat, lang: string, bodyStart: nat, bodyEnd: nat) {
    /** `match.index + match[0].length`. */
    function End(): nat {
      bodyEnd + 3
    }
  }

  /** `m` is a match of the pattern in `text`: "```", a (possibly empty) run of
      word characters, a line feed, then a body that contains no fence, up to
      the first fence after the line feed. */
  predicate IsMatch(text: string, m: Match) {
    && FenceAt(text, m.start)
    && m.bodyStart == m.start + 3 + |m.lang| + 1
    && m.bodyStart <= m.bodyEnd
    && FenceAt(text, m.bodyEnd)
    && text[m.start + 3 .. m.bodyStart - 1] == m.lang
    && (forall k | 0 <= k < |m.lang| :: IsWordChar(m.lang[k]))
    && text[m.bodyStart - 1] == '\n'
    && (forall j | m.bodyStart <= j < m.bodyEnd :: !FenceAt(text, j))
  }

  /** Whether the pattern matches at index `i`, and with which groups. */
  function MatchAt(text: string, i: nat): (r: Option<Match>)
    ensures r.Some? ==> r.value.start == i && IsMatch(text, r.value)
  {
    if !FenceAt(text, i) then None
    else
      var e := WordRunEnd(text, i + 3);
      if e < |text| && text[e] == '\n' then
        match NextFence(text, e + 1)
        case None => None
        case Some(j) =>
          var m := Match(i, text[i + 3 .. e], e + 1, j);
          assert forall k | 0 <= k < |m.lang| :: m.lang[k] == text[i + 3 + k];
          Some(m)
      else None
  }

  /** `MatchAt` misses no match: every match is the one `MatchAt` finds at its start. */
  lemma MatchAtIsComplete(text: string, m: Match)
    requires IsMatch(text, m)
    ensures MatchAt(text, m.start) == Some(m)
  {
    LanguageRunIsMaximal(text, m);
    var r := MatchAt(text, m.start);
    assert r.Some?;
    LanguageRunIsMaximal(text, r.value);
  }

  /** At most one match starts at any index. */
  lemma MatchesAtAreUnique(text: string, m: Match, m': Match)
    requires IsMatch(text, m) && IsMatch(text, m') && m.start == m'.start
    ensures m == m'
  {
    MatchAtIsComplete(text, m);
    MatchAtIsComplete(text, m');
  }

  /** The language word of a match is the maximal word run after the fence. */
  lemma LanguageRunIsMaximal(text: string, m: Match)
    requires IsMatch(text, m)
    ensures WordRunEnd(text, m.start + 3) == m.bodyStart - 1
  {
    var e := WordRunEnd(text, m.start + 3);
    var lineFeed := m.bodyStart - 1;
    forall k | m.start + 3 <= k < lineFeed ensures IsWordChar(text[k]) {
      assert text[k] == m.lang[k - (m.start + 3)];
    }
  }

  /** One call of `regex.exec(text)` with `lastIndex == from`: the leftmost
      match starting at or after `from`. */
  function FindMatch(text: string, from: nat): (r: Option<Match>)
    requires from <= |text|
    ensures r.Some? ==> from <= r.value.start && IsMatch(text, r.value)
    decreases |text| - from
  {
    if from == |text| then None
    else
      match MatchAt(text, from)
      case Some(m) => Some(m)
      case None => FindMatch(text, from + 1)
  }

  /** `FindMatch` returns the leftmost match at or after `from`, and none only
      when there is none. */
  lemma {:induction false} FindMatchIsLeftmost(text: string, from: nat, m: Match)
    requires from <= |text|
    requires from <= m.start && IsMatch(text, m)
    ensures FindMatch(text, from).Some? && FindMatch(text, from).value.start <= m.start
    decreases |text| - from
  {
    if from == m.start {
      MatchAtIsComplete(text, m);
    } else if MatchAt(text, from).None? {
      FindMatchIsLeftmost(text, from + 1, m);
    }
  }

  lemma MatchIsInText(text: string, m: Match)
    requires IsMatch(text, m)
    ensures m.start + 7 <= m.End() <= |text|
  {
  }

  /** No match starts in `[from, to)`. */
  ghost predicate NoMatchIn(text: string, from: int, to: int) {
    forall m: Match | from <= m.start < to :: !IsMatch(text, m)
  }

  /** A piece of the tokenised text: the gap `text[from..to]` between matches,
      or a match. */
  datatype Segment = Gap(from: nat, to: nat) | Block(m: Match) {
    function Start(): nat {
      match this
      case Gap(from, _) => from
      case Block(m) => m.start
    }
    function Stop(): nat {
      match this
      case Gap(_, to) => to
      case Block(m) => m.End()
    }
  }

  /** The segments the scanning loop walks through when `lastIndex == last`. */
  function SegmentsFrom(text: string, last: nat): seq<Segment>
    requires last <= |text|
    decreases |text| - last
  {
    match FindMatch(text, last)
    case None => if last < |text| then [Gap(last, |text|)] else []
    case Some(m) =>
      MatchIsInText(text, m);
      (if last < m.start then [Gap(last, m.start)] else []) + [Block(m)] + SegmentsFrom(text, m.End())
  }

  /**
   * A correct tokenisation of `text[last..]`, stated without reference to the
   * search: the segments tile the text from `last` to its end; each block is a
   * match; each gap is non-empty, contains no match start, and is followed by a
   * block or by the end of the text.
   */
  ghost predicate Scans(text: string, last: nat, segs: seq<Segment>)
    decreases |segs|
  {
    if segs == [] then last == |text|
    else
      match segs[0]
      case Gap(from, to) =>
        && from == last && last < to <= |text|
        && NoMatchIn(text, from, to)
        && (|segs| > 1 ==> segs[1].Block?)
        && Scans(text, to, segs[1..])
      case Block(m) =>
        && m.start == last && IsMatch(text, m)
        && Scans(text, m.End(), segs[1..])
  }

  /** Before the match `FindMatch` returns, and anywhere when it returns none,
      no match starts. */
  lemma NothingBeforeFound(text: string, from: nat)
    requires from <= |text|
    ensures FindMatch(text, from).Some? ==> NoMatchIn(text, from, FindMatch(text, from).value.start)
    ensures FindMatch(text, from).None? ==> NoMatchIn(text, from, |text| + 1)
  {
    forall m: Match | from <= m.start && IsMatch(text, m)
      ensures FindMatch(text, from).Some? && FindMatch(text, from).value.start <= m.start
    {
      FindMatchIsLeftmost(text, from, m);
    }
  }

  /** A match preceded by a match-free gap (possibly empty) extends a
      tokenisation of what follows the match. */
  lemma ScansGapThenBlock(text: string, last: nat, m: Match, tail: seq<Segment>)
    requires IsMatch(text, m) && last <= m.start
    requires NoMatchIn(text, last, m.start)
    requires Scans(text, m.End(), tail)
    ensures Scans(text, last, (if last < m.start then [Gap(last, m.start)] else []) + [Block(m)] + tail)
  {
    MatchIsInText(text, m);
    var rest := [Block(m)] + tail;
    assert rest[1..] == tail;
    if last < m.start {
      var segs := [Gap(last, m.start)] + rest;
      assert segs[1..] == rest;
    } else {
      assert [] + rest == rest;
    }
  }

  /** The scanner's tokenisation is a correct one. */
  lemma {:induction false} SegmentsScan(text: string, last: nat)
    requires last <= |text|
    ensures Scans(text, last, SegmentsFrom(text, last))
    decreases |text| - last
  {
    NothingBeforeFound(text, last);
    match FindMatch(text, last)
    case None =>
    case Some(m) =>
      MatchIsInText(text, m);
      SegmentsScan(text, m.End());
      ScansGapThenBlock(text, last, m, SegmentsFrom(text, m.End()));
  }

  /** In a correct tokenisation that is not a single gap, the first block is
      the first match the search finds, preceded by at most one gap. */
  lemma FirstBlockIsFound(text: string, last: nat, segs: seq<Segment>)
    requires last <= |text|
    requires Scans(text, last, segs)
    requires segs != [] && !(segs[0].Gap? && |segs| == 1)
    ensures FindMatch(text, last).Some?
    ensures var m := FindMatch(text, last).value;
      var tail := if segs[0].Gap? then segs[2..] else segs[1..];
      && m.End() <= |text|
      && segs == (if last < m.start then [Gap(last, m.start)] else []) + [Block(m)] + tail
      && Scans(text, m.End(), tail)
  {
    var b := if segs[0].Block? then segs[0].m else segs[1].m;
    assert IsMatch(text, b) && last <= b.start;
    FindMatchIsLeftmost(text, last, b);
    NothingBeforeFound(text, last);
    var m := FindMatch(text, last).value;
    MatchIsInText(text, m);
    MatchesAtAreUnique(text, m, b);
    if segs[0].Gap? {
      assert segs[1..][1..] == segs[2..];
      assert segs == [Gap(last, m.start)] + [Block(m)] + segs[2..];
    } else {
      assert segs == [] + [Block(m)] + segs[1..];
    }
  }

  /** A correct tokenisation without blocks is the scanner's. */
  lemma ScansWithoutBlock(text: string, last: nat, segs: seq<Segment>)
    requires last <= |text|
    requires Scans(text, last, segs)
    requires segs == [] || (segs[0].Gap? && |segs| == 1)
    ensures segs == SegmentsFrom(text, last)
  {
    NothingBeforeFound(text, last);
    if segs != [] {
      assert Scans(text, segs[0].to, []);
    }
  }

  /** ... and the only one: every correct tokenisation is the scanner's. */
  lemma {:induction false} ScansIsUnique(text: string, last: nat, segs: seq<Segment>)
    requires last <= |text|
    requires Scans(text, last, segs)
    ensures segs == SegmentsFrom(text, last)
    decreases |segs|
  {
    if segs == [] || (segs[0].Gap? && |segs| == 1) {
      ScansWithoutBlock(text, last, segs);
    } else {
      FirstBlockIsFound(text, last, segs);
      var m := FindMatch(text, last).value;
      SegmentsFromStep(text, last);
      ScansIsUnique(text, m.End(), if segs[0].Gap? then segs[2..] else segs[1..]);
    }
  }

  /** The segment lies inside the text, and a block is a match. */
  ghost predicate Fits(text: string, seg: Segment) {
    && seg.Start() <= seg.Stop() <= |text|
    && (seg.Block? ==> IsMatch(text, seg.m))
  }

  /** The characters the segments cover, concatenated. */
  function Spell(text: string, segs: seq<Segment>): string
    requires forall k | 0 <= k < |segs| :: Fits(text, segs[k])
  {
    if segs == [] then []
    else
      assert Fits(text, segs[0]);
      text[segs[0].Start()..segs[0].Stop()] + Spell(text, segs[1..])
  }

  /** A correct tokenisation partitions the text: the untrimmed pieces (gap,
      match, gap, match, ..., tail) concatenate to exactly `text[last..]`. */
  lemma {:induction false} ScansSpellsText(text: string, last: nat, segs: seq<Segment>)
    requires Scans(text, last, segs)
    ensures last <= |text|
    ensures (forall k | 0 <= k < |segs| :: Fits(text, segs[k])) && Spell(text, segs) == text[last..]
    decreases |segs|
  {
    if segs != [] {
      var stop := segs[0].Stop();
      if segs[0].Block? {
        MatchIsInText(text, segs[0].m);
      }
      ScansSpellsText(text, stop, segs[1..]);
      assert text[last..] == text[last..stop] + text[stop..];
    }
  }

  function TextArtifact(content: string): Artifact {
    Artifact(Text, content, None)
  }

  /** `match[1] || "plaintext"`: an absent language group reads as "plaintext". */
  function Language(m: Match): string {
    if m.lang == [] then "plaintext" else m.lang
  }

  function CodeArtifact(text: string, m: Match): Artifact
    requires IsMatch(text, m)
  {
    Artifact(Code, Trim(text[m.bodyStart..m.bodyEnd]), Some(Metadata(Some(Language(m)), None, None)))
  }

  /** The artifact the scanner emits for a segment: a gap as trimmed text, a
      match as its trimmed body with its language. */
  function ArtifactOf(text: string, seg: Segment): Artifact
    requires Fits(text, seg)
  {
    match seg
    case Gap(from, to) => TextArtifact(Trim(text[from..to]))
    case Block(m) => CodeArtifact(text, m)
  }

  /** The artifacts `extractCodeBlocks` pushes from `lastIndex == last` on. */
  function ExtractFrom(text: string, last: nat): seq<Artifact>
    requires last <= |text|
    decreases |text| - last
  {
    match FindMatch(text, last)
    case None => if last < |text| then [TextArtifact(Trim(text[last..]))] else []
    case Some(m) =>
      MatchIsInText(text, m);
      (if last < m.start then [TextArtifact(Trim(text[last..m.start]))] else [])
      + [CodeArtifact(text, m)]
      + ExtractFrom(text, m.End())
  }

  /** `extractCodeBlocks(text)`. */
  function Extract(text: string): seq<Artifact> {
    ExtractFrom(text, 0)
  }

  /** `extractCodeBlocks`, as the source writes it: a `while` loop over
      `regex.exec` that pushes the text before each match and the match, then
      the text after the last match. */
  method ExtractCodeBlocks(text: string) returns (artifacts: seq<Artifact>)
    ensures artifacts == Extract(text)
  {
    artifacts := [];
    var lastIndex: nat := 0;
    var found := FindMatch(text, lastIndex);
    while found.Some?
      invariant lastIndex <= |text|
      invariant found == FindMatch(text, lastIndex)
      invariant artifacts + ExtractFrom(text, lastIndex) == Extract(text)
      decreases |text| - lastIndex
    {
      var m := found.value;
      ExtractLoopStep(text, lastIndex, artifacts);
      artifacts := PushMatch(text, lastIndex, m, artifacts);
      lastIndex := m.End();
      found := FindMatch(text, lastIndex);
    }
    if lastIndex < |text| {
      artifacts := artifacts + [TextArtifact(Trim(text[lastIndex..]))];
    }
  }

  /** The loop body's pushes: the text since `lastIndex` when there is any,
      then the match. */
  method PushMatch(text: string, lastIndex: nat, m: Match, artifacts: seq<Artifact>) returns (pushed: seq<Artifact>)
    requires IsMatch(text, m) && lastIndex <= m.start
    ensures pushed == artifacts + Pushed(text, lastIndex, m)
  {
    pushed := artifacts;
    if m.start > lastIndex {
      pushed := pushed + [TextArtifact(Trim(text[lastIndex..m.start]))];
    }
    pushed := pushed + [CodeArtifact(text, m)];
  }

  /** One turn of the loop keeps its invariant: pushing the text before the
      match and the match leaves `ExtractFrom` of the match end to do. */
  lemma ExtractLoopStep(text: string, last: nat, done: seq<Artifact>)
    requires last <= |text| && FindMatch(text, last).Some?
    requires done + ExtractFrom(text, last) == Extract(text)
    ensures var m := FindMatch(text, last).value;
      && last < m.End() <= |text|
      && (done + Pushed(text, last, m)) + ExtractFrom(text, m.End()) == Extract(text)
  {
    ExtractFromStep(text, last);
  }

  /** What one turn of the loop pushes for the match `m` found from `last`. */
  function Pushed(text: string, last: nat, m: Match): seq<Artifact>
    requires IsMatch(text, m) && last <= m.start
  {
    (if last < m.start then [TextArtifact(Trim(text[last..m.start]))] else []) + [CodeArtifact(text, m)]
  }

  /** One turn of the loop: what it pushes is the head of `ExtractFrom`. */
  lemma ExtractFromStep(text: string, last: nat)
    requires last <= |text| && FindMatch(text, last).Some?
    ensures var m := FindMatch(text, last).value;
      && m.End() <= |text|
      && ExtractFrom(text, last) == Pushed(text, last, m) + ExtractFrom(text, m.End())
  {
  }

  lemma SegmentsFromStep(text: string, last: nat)
    requires last <= |text| && FindMatch(text, last).Some?
    ensures var m := FindMatch(text, last).value;
      && m.End() <= |text|
      && SegmentsFrom(text, last) == HeadSegments(last, m) + SegmentsFrom(text, m.End())
  {
  }

  /** `arts` is the artifact list of the segments `segs`, position by position. */
  ghost predicate Corresponds(text: string, segs: seq<Segment>, arts: seq<Artifact>) {
    && |segs| == |arts|
    && forall k | 0 <= k < |segs| :: Fits(text, segs[k]) && arts[k] == ArtifactOf(text, segs[k])
  }

  /** The segments one turn of the loop walks over: the gap before the match,
      if any, and the match. */
  function HeadSegments(last: nat, m: Match): seq<Segment> {
    (if last < m.start then [Gap(last, m.start)] else []) + [Block(m)]
  }

  /** What one turn pushes is the artifact list of the segments it walks over. */
  lemma PushedCorresponds(text: string, last: nat, m: Match)
    requires IsMatch(text, m) && last <= m.start
    ensures Corresponds(text, HeadSegments(last, m), Pushed(text, last, m))
  {
    MatchIsInText(text, m);
  }

  /** The k-th artifact is the artifact of the k-th segment of the tokenisation. */
  lemma {:induction false} ExtractFollowsSegments(text: string, last: nat)
    requires last <= |text|
    ensures Corresponds(text, SegmentsFrom(text, last), ExtractFrom(text, last))
    decreases |text| - last
  {
    var found := FindMatch(text, last);
    if found.None? {
      assert text[last..] == text[last..|text|];
    } else {
      var m := found.value;
      ExtractFromStep(text, last);
      SegmentsFromStep(text, last);
      ExtractFollowsSegments(text, m.End());
      PushedCorresponds(text, last, m);
      AppendCorresponds(text, HeadSegments(last, m), Pushed(text, last, m),
                        SegmentsFrom(text, m.End()), ExtractFrom(text, m.End()));
    }
  }

  lemma AppendCorresponds(text: string, s1: seq<Segment>, a1: seq<Artifact>, s2: seq<Segment>, a2: seq<Artifact>)
    requires Corresponds(text, s1, a1) && Corresponds(text, s2, a2)
    ensures Corresponds(text, s1 + s2, a1 + a2)
  {
    forall k | 0 <= k < |s1 + s2|
      ensures Fits(text, (s1 + s2)[k]) && (a1 + a2)[k] == ArtifactOf(text, (s1 + s2)[k])
    {
      if k >= |s1| {
        assert (s1 + s2)[k] == s2[k - |s1|];
      }
    }
  }

  /** Shape of a correct tokenisation: every segment is non-empty, each one
      ends where the next begins (so matches never overlap and come in
      left-to-right order), and a gap is always followed by a block. */
  lemma {:induction false} ScansShape(text: string, last: nat, segs: seq<Segment>)
    requires Scans(text, last, segs)
    ensures segs != [] ==> segs[0].Start() == last
    ensures forall k | 0 <= k < |segs| :: segs[k].Start() < segs[k].Stop()
    ensures forall k | 0 <= k < |segs| - 1 :: segs[k].Stop() == segs[k + 1].Start()
    ensures forall k | 0 <= k < |segs| - 1 :: segs[k].Gap? ==> segs[k + 1].Block?
    decreases |segs|
  {
    if segs != [] {
      if segs[0].Block? {
        MatchIsInText(text, segs[0].m);
      }
      ScansShape(text, segs[0].Stop(), segs[1..]);
      forall k | 0 <= k < |segs| - 1
        ensures segs[k].Stop() == segs[k + 1].Start()
        ensures segs[k].Gap? ==> segs[k + 1].Block?
      {
        if k > 0 {
          assert segs[k] == segs[1..][k - 1] && segs[k + 1] == segs[1..][k];
        }
      }
    }
  }

  /** The untrimmed pieces the scanner walks through (gap, match, gap, match,
      ..., tail) concatenate to exactly the input. */
  lemma SegmentsPartitionText(text: string)
    ensures forall k | 0 <= k < |SegmentsFrom(text, 0)| :: Fits(text, SegmentsFrom(text, 0)[k])
    ensures Spell(text, SegmentsFrom(text, 0)) == text
  {
    SegmentsScan(text, 0);
    ScansSpellsText(text, 0, SegmentsFrom(text, 0));
  }

  /** A text artifact is followed by a code artifact or is the last one: no two
      text artifacts are adjacent. */
  lemma NoAdjacentTextArtifacts(text: string)
    ensures var arts := Extract(text);
      forall k | 0 <= k < |arts| - 1 :: arts[k].kind == Text ==> arts[k + 1].kind == Code
  {
    var segs, arts := SegmentsFrom(text, 0), Extract(text);
    ExtractFollowsSegments(text, 0);
    SegmentsScan(text, 0);
    ScansShape(text, 0, segs);
    forall k | 0 <= k < |arts| - 1 && arts[k].kind == Text
      ensures arts[k + 1].kind == Code
    {
      assert arts[k] == ArtifactOf(text, segs[k]);
      assert arts[k + 1] == ArtifactOf(text, segs[k + 1]);
    }
  }

  /** Every artifact is a text or a code artifact; the code artifacts are
      exactly the blocks, with the trimmed body and the language tag. */
  lemma ArtifactsAreTextOrCode(text: string)
    ensures forall a | a in Extract(text) :: a.kind == Text || a.kind == Code
    ensures forall a | a in Extract(text) && a.kind == Text :: a.metadata == None
    ensures forall a | a in Extract(text) && a.kind == Code ::
      a.metadata.Some? && a.metadata.value.language.Some? && a.metadata.value.language.value != []
  {
    var segs, arts := SegmentsFrom(text, 0), Extract(text);
    ExtractFollowsSegments(text, 0);
    forall a | a in arts
      ensures a.kind == Text || a.kind == Code
      ensures a.kind == Text ==> a.metadata == None
      ensures a.kind == Code ==> a.metadata.Some? && a.metadata.value.language.Some? && a.metadata.value.language.value != []
    {
      var k :| 0 <= k < |arts| && arts[k] == a;
      assert a == ArtifactOf(text, segs[k]);
    }
  }

  /** The input contains a complete fence if and only if some code artifact
      is produced. */
  lemma CodeIffMatch(text: string)
    ensures (exists k | 0 <= k < |Extract(text)| :: Extract(text)[k].kind == Code)
        <==> !NoMatchIn(text, 0, |text| + 1)
  {
    NothingBeforeFound(text, 0);
    match FindMatch(text, 0)
    case None =>
      assert Extract(text) == if 0 < |text| then [TextArtifact(Trim(text[0..]))] else [];
    case Some(m) =>
      ExtractFromStep(text, 0);
      var arts := Pushed(text, 0, m);
      assert arts[|arts| - 1].kind == Code;
      assert Extract(text)[|arts| - 1] == arts[|arts| - 1];
  }

  /** Without a complete fence (an unterminated "```lang\n..." included) the
      whole input, trimmed, is the one text artifact; empty input gives none. */
  lemma NoMatchIsOneText(text: string)
    requires NoMatchIn(text, 0, |text| + 1)
    ensures Extract(text) == if text == [] then [] else [TextArtifact(Trim(text))]
  {
    assert FindMatch(text, 0).None?;
    assert text[0..] == text;
  }

  /** The search finds the fence of "```\nhello\n```" at index 0, with no
      language word. */
  lemma PlaintextMatch()
    ensures FindMatch("```\nhello\n```", 0) == Some(Match(0, "", 4, 10))
  {
    var text := "```\nhello\n```";
    var m := Match(0, "", 4, 10);
    assert |text| == 13 && text[3] == '\n' && text[10..13] == "```";
    assert forall j | 4 <= j < 10 :: text[j] != '`';
    assert IsMatch(text, m);
    FindMatchIsLeftmost(text, 0, m);
    MatchesAtAreUnique(text, FindMatch(text, 0).value, m);
  }

  /** A fence with no language word: the tag falls back to "plaintext" and the
      body is trimmed. */
  lemma PlaintextExample()
    ensures Extract("```\nhello\n```")
         == [Artifact(Code, "hello", Some(Metadata(Some("plaintext"), None, None)))]
  {
    var text := "```\nhello\n```";
    PlaintextMatch();
    ExtractFromStep(text, 0);
    assert Trim(text[4..10]) == "hello" by {
      assert text[4..10] == "hello\n";
      assert TrimStart("hello\n") == "hello\n";
      assert "hello\n"[..5] == "hello";
      assert TrimEnd("hello\n") == TrimEnd("hello") == "hello";
    }
    assert ExtractFrom(text, 13) == [];
  }

  /** "```js x" is followed by a space, not a line feed: no match starts there. */
  lemma SpaceAfterLanguageExample()
    ensures MatchAt("```js x\ny\n```", 0) == None
  {
    assert WordRunEnd("```js x\ny\n```", 3) == 5;
  }

  /** An unterminated fence stays inside the one text artifact. */
  lemma DanglingFenceExample()
    ensures Extract("before ```python\ncode here") == [TextArtifact("before ```python\ncode here")]
  {
    var text := "before ```python\ncode here";
    assert |text| == 26;
    assert forall j | FenceAt(text, j) :: j == 7 by {
      forall j | 0 <= j < |text| && j != 7 && j != 8 && j != 9 ensures text[j] != '`' { }
    }
    assert NoMatchIn(text, 0, |text| + 1);
    NoMatchIsOneText(text);
    assert TrimStart(text) == text;
    assert TrimEnd(text) == text;
  }
}
