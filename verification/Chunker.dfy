// Long messages cut into chunks that Telegram accepts
// (src/mission_orchestrator/adapters/telegram/api.py).
module Chunker {

  const MAX_MESSAGE := 4096

  // The last newline of s before position `end`, or -1.
  function LastNewline(s: string, end: nat): (at: int)
    requires end <= |s|
    ensures -1 <= at < end
    ensures at >= 0 ==> s[at] == '\n'
    ensures forall j | at < j < end :: s[j] != '\n'
  {
    if end == 0 then -1
    else if s[end - 1] == '\n' then end - 1
    else LastNewline(s, end - 1)
  }

  function WithoutLeadingNewlines(s: string): (r: string)
    ensures |r| <= |s| && (r != "" ==> r[0] != '\n')
  {
    if s != "" && s[0] == '\n' then WithoutLeadingNewlines(s[1..]) else s
  }

  // Where a message that is too long is cut.
  function SplitAt(s: string): (at: nat)
    requires |s| > MAX_MESSAGE
    ensures 0 < at <= MAX_MESSAGE
  {
    var newline := LastNewline(s, MAX_MESSAGE);
    if newline <= 0 then MAX_MESSAGE else newline
  }

  function ChunksOf(s: string): seq<string>
    decreases |s|
  {
    if |s| <= MAX_MESSAGE then [s]
    else [s[..SplitAt(s)]] + ChunksOf(WithoutLeadingNewlines(s[SplitAt(s)..]))
  }

  // What is dropped between the chunks.
  function GapsOf(s: string): seq<string>
    decreases |s|
  {
    if |s| <= MAX_MESSAGE then []
    else
      var rest := s[SplitAt(s)..];
      var kept := WithoutLeadingNewlines(rest);
      [rest[..|rest| - |kept|]] + GapsOf(kept)
  }

  method ChunkMessage(text: string) returns (chunks: seq<string>)
    ensures chunks == ChunksOf(text)
  {
    if text == "" {
      return [""];
    }
    chunks := [];
    var remaining := text;
    while |remaining| > MAX_MESSAGE
      invariant chunks + ChunksOf(remaining) == ChunksOf(text)
      decreases |remaining|
    {
      var splitAt := LastNewline(remaining, MAX_MESSAGE);
      if splitAt <= 0 {
        splitAt := MAX_MESSAGE;
      }
      ghost var before := remaining;
      chunks := chunks + [remaining[..splitAt]];
      remaining := WithoutLeadingNewlines(remaining[splitAt..]);
      assert ChunksOf(before) == [before[..splitAt]] + ChunksOf(remaining);
    }
    chunks := chunks + [remaining];
  }

  // ----- what the chunks are -----

  predicate Newlines(s: string) {
    forall i | 0 <= i < |s| :: s[i] == '\n'
  }

  // A message is cut at its last newline within the limit, if there is one
  // that leaves a chunk in front of it, and at the limit otherwise.
  lemma SplitMeaning(s: string, at: nat)
    requires |s| > MAX_MESSAGE
    ensures SplitAt(s) == at <==>
              || (0 < at < MAX_MESSAGE && s[at] == '\n' && forall j | at < j < MAX_MESSAGE :: s[j] != '\n')
              || (at == MAX_MESSAGE && forall j | 0 < j < MAX_MESSAGE :: s[j] != '\n')
  {
    var newline := LastNewline(s, MAX_MESSAGE);
    if newline > 0 {
      assert s[newline] == '\n';
    }
  }

  lemma {:induction false} OnlyNewlinesGo(s: string)
    ensures var kept := WithoutLeadingNewlines(s);
            Newlines(s[..|s| - |kept|]) && s[|s| - |kept|..] == kept
  {
    if s != "" && s[0] == '\n' {
      OnlyNewlinesGo(s[1..]);
      var kept := WithoutLeadingNewlines(s);
      assert s[..|s| - |kept|] == [s[0]] + s[1..][..|s| - 1 - |kept|];
      assert s[|s| - |kept|..] == s[1..][|s| - 1 - |kept|..];
    }
  }

  // Chunks and gaps in turn, beginning and ending with a chunk.
  function Woven(chunks: seq<string>, gaps: seq<string>): string
    requires |chunks| == |gaps| + 1
  {
    if gaps == [] then chunks[0] else chunks[0] + gaps[0] + Woven(chunks[1..], gaps[1..])
  }

  // The text is the chunks with runs of newlines between them.
  lemma {:induction false} ChunksRebuildTheText(s: string)
    ensures |ChunksOf(s)| == |GapsOf(s)| + 1 && Woven(ChunksOf(s), GapsOf(s)) == s
    ensures forall g | g in GapsOf(s) :: Newlines(g)
    decreases |s|
  {
    if |s| > MAX_MESSAGE {
      var at := SplitAt(s);
      var rest := s[at..];
      var kept := WithoutLeadingNewlines(rest);
      OnlyNewlinesGo(rest);
      ChunksRebuildTheText(kept);
      WeaveOne(s[..at], rest[..|rest| - |kept|], ChunksOf(kept), GapsOf(kept));
      Rejoined(s, at, |rest| - |kept|);
    }
  }

  lemma WeaveOne(chunk: string, gap: string, chunks: seq<string>, gaps: seq<string>)
    requires |chunks| == |gaps| + 1
    ensures Woven([chunk] + chunks, [gap] + gaps) == chunk + gap + Woven(chunks, gaps)
  {
    assert ([chunk] + chunks)[1..] == chunks && ([gap] + gaps)[1..] == gaps;
  }

  lemma Rejoined(s: string, at: nat, skip: nat)
    requires at + skip <= |s|
    ensures s[..at] + s[at..][..skip] + s[at..][skip..] == s
  {
  }

  // Every chunk fits; only the last can be empty; only the first can begin
  // with a newline; a chunk below the limit, other than the last, was cut at
  // a newline.
  lemma {:induction false} ChunksFit(s: string, i: nat)
    requires i < |ChunksOf(s)|
    ensures |ChunksOf(s)[i]| <= 4096
    ensures i < |ChunksOf(s)| - 1 ==> ChunksOf(s)[i] != ""
    ensures i > 0 && ChunksOf(s)[i] != "" ==> ChunksOf(s)[i][0] != '\n'
    ensures i < |ChunksOf(s)| - 1 && |ChunksOf(s)[i]| < 4096 ==> i < |GapsOf(s)| && GapsOf(s)[i] != ""
    decreases |s|
  {
    if |s| > MAX_MESSAGE {
      var rest := s[SplitAt(s)..];
      var kept := WithoutLeadingNewlines(rest);
      if i > 0 {
        ChunksFit(kept, i - 1);
        if i == 1 { FirstChunk(kept); }
      } else {
        SplitMeaning(s, SplitAt(s));
        assert |s[..SplitAt(s)]| < MAX_MESSAGE ==> rest[0] == '\n' && kept != rest;
      }
    }
  }

  lemma FirstChunk(s: string)
    ensures ChunksOf(s)[0] <= s
    ensures s != "" ==> ChunksOf(s)[0] != ""
  {
  }

  function Concat(parts: seq<string>): string {
    if parts == [] then "" else parts[0] + Concat(parts[1..])
  }

  function Visible(s: string): string {
    if s == "" then "" else (if s[0] == '\n' then "" else [s[0]]) + Visible(s[1..])
  }

  lemma Associates(a: string, b: string, c: string)
    ensures a + (b + c) == a + b + c
  {
  }

  lemma {:induction false} VisibleConcat(a: string, b: string)
    ensures Visible(a + b) == Visible(a) + Visible(b)
  {
    if a == "" {
      assert a + b == b;
    } else {
      VisibleConcat(a[1..], b);
      assert (a + b)[1..] == a[1..] + b;
      Associates(if a[0] == '\n' then "" else [a[0]], Visible(a[1..]), Visible(b));
    }
  }

  lemma {:induction false} NewlinesInvisible(s: string)
    requires Newlines(s)
    ensures Visible(s) == ""
  {
    if s != "" {
      NewlinesInvisible(s[1..]);
    }
  }

  lemma {:induction false} WovenVisible(chunks: seq<string>, gaps: seq<string>)
    requires |chunks| == |gaps| + 1 && forall g | g in gaps :: Newlines(g)
    ensures Visible(Woven(chunks, gaps)) == Visible(Concat(chunks))
    decreases |gaps|
  {
    if gaps == [] {
      assert chunks[1..] == [];
      assert chunks[0] + "" == chunks[0];
    } else {
      WovenVisible(chunks[1..], gaps[1..]);
      NewlinesInvisible(gaps[0]);
      VisibleConcat(chunks[0] + gaps[0], Woven(chunks[1..], gaps[1..]));
      VisibleConcat(chunks[0], gaps[0]);
      VisibleConcat(chunks[0], Concat(chunks[1..]));
    }
  }

  // No character but newlines is lost, added or moved.
  lemma NothingVisibleIsLost(s: string)
    ensures Visible(Concat(ChunksOf(s))) == Visible(s)
  {
    ChunksRebuildTheText(s);
    WovenVisible(ChunksOf(s), GapsOf(s));
  }
}
