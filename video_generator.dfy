/**
 * The subtitle and timing logic of `video_generator.py`: how
 * `generate_subtitle_file` reads `[m:ss]` cues, splits long cue text into
 * chunks of words, times each subtitle and writes the `HH:MM:SS,mmm`
 * timestamps, and how `create_timing_data` lays scenes out on a timeline.
 * Times are exact reals; Python's floats round them.
 */
module VideoGenerator {
  import opened Wrappers
  import opened Text
  import opened ScriptGenerator

  // ---------------------------------------------------------------------
  // Splitting long cue text into chunks of words
  // ---------------------------------------------------------------------

  /** `word.endswith('.') or word.endswith('!') or word.endswith('?')` */
  predicate SentenceEnd(w: string) {
    |w| > 0 && (w[|w| - 1] == '.' || w[|w| - 1] == '!' || w[|w| - 1] == '?')
  }

  /** `current_length`: each word counts its length plus one for the space. */
  function CharLen(c: seq<string>): nat {
    if |c| == 0 then 0 else CharLen(c[..|c| - 1]) + |c[|c| - 1]| + 1
  }

  /**
   * The chunk being built is closed right after its last word: a sentence end
   * once it holds five words, more than 70 characters, or twelve words.
   */
  predicate Closes(c: seq<string>)
    requires |c| > 0
  {
    (SentenceEnd(c[|c| - 1]) && |c| >= 5) || CharLen(c) > 70 || |c| >= 12
  }

  /** No shorter non-empty prefix of `c` would have been closed. */
  predicate NoEarlyClose(c: seq<string>) {
    forall k :: 1 <= k < |c| ==> !Closes(c[..k])
  }

  function Flatten(cs: seq<seq<string>>): seq<string> {
    if |cs| == 0 then [] else cs[0] + Flatten(cs[1..])
  }

  /**
   * What the loop promises: the chunks are non-empty, concatenated they give
   * back the words in order, each was cut at the first point where it closes,
   * and only the last may have been left open.
   */
  predicate IsChunking(words: seq<string>, chunks: seq<seq<string>>) {
    Flatten(chunks) == words
    && (forall i :: 0 <= i < |chunks| ==> |chunks[i]| > 0 && NoEarlyClose(chunks[i]))
    && (forall i :: 0 <= i < |chunks| - 1 ==> Closes(chunks[i]))
  }

  /** The chunks still to come when `cur` is the open chunk and `ws` the words not yet read. */
  function ChunksFrom(ws: seq<string>, cur: seq<string>): (r: seq<seq<string>>)
    ensures |ws| + |cur| > 0 ==> |r| > 0
    decreases |ws|
  {
    if |ws| == 0 then (if |cur| > 0 then [cur] else [])
    else
      var c := cur + [ws[0]];
      if Closes(c) then [c] + ChunksFrom(ws[1..], [])
      else ChunksFrom(ws[1..], c)
  }

  function Chunks(words: seq<string>): seq<seq<string>> {
    ChunksFrom(words, [])
  }

  lemma {:induction false} FlattenCons(c: seq<string>, cs: seq<seq<string>>)
    ensures Flatten([c] + cs) == c + Flatten(cs)
  {
    assert ([c] + cs)[1..] == cs;
  }

  /** Extending an open chunk by a word that does not close it keeps it open. */
  lemma {:induction false} NoEarlyCloseExtend(cur: seq<string>, w: string)
    requires NoEarlyClose(cur) && (|cur| > 0 ==> !Closes(cur))
    ensures NoEarlyClose(cur + [w])
  {
    var c := cur + [w];
    forall k | 1 <= k < |c|
      ensures !Closes(c[..k])
    {
      assert c[..k] == cur[..k];
      if k == |cur| {
        assert cur[..k] == cur;
      }
    }
  }

  /** The function the loop follows meets the chunking promise, from any open chunk. */
  lemma {:induction false} ChunksFromIsChunking(ws: seq<string>, cur: seq<string>)
    requires NoEarlyClose(cur) && (|cur| > 0 ==> !Closes(cur))
    ensures IsChunking(cur + ws, ChunksFrom(ws, cur))
    decreases |ws|
  {
    if |ws| == 0 {
      assert cur + ws == cur;
      if |cur| > 0 {
        FlattenCons(cur, []);
      }
    } else {
      var c := cur + [ws[0]];
      NoEarlyCloseExtend(cur, ws[0]);
      assert cur + ws == c + ws[1..];
      if Closes(c) {
        ChunksFromIsChunking(ws[1..], []);
        var rest := ChunksFrom(ws[1..], []);
        assert [] + ws[1..] == ws[1..];
        FlattenCons(c, rest);
        var r := [c] + rest;
        forall i | 0 <= i < |r|
          ensures |r[i]| > 0 && NoEarlyClose(r[i])
        {
          if i > 0 {
            assert r[i] == rest[i - 1];
          }
        }
        forall i | 0 <= i < |r| - 1
          ensures Closes(r[i])
        {
          if i > 0 {
            assert r[i] == rest[i - 1];
          }
        }
      } else {
        ChunksFromIsChunking(ws[1..], c);
      }
    }
  }

  lemma {:induction false} ChunksIsChunking(words: seq<string>)
    ensures IsChunking(words, Chunks(words))
  {
    ChunksFromIsChunking(words, []);
    assert [] + words == words;
  }

  /** `ChunksFrom` with the finished chunks carried along, as the loop keeps them. */
  function ChunksAcc(ws: seq<string>, cur: seq<string>, acc: seq<seq<string>>): seq<seq<string>>
    decreases |ws|
  {
    if |ws| == 0 then (if |cur| > 0 then acc + [cur] else acc)
    else
      var c := cur + [ws[0]];
      if Closes(c) then ChunksAcc(ws[1..], [], acc + [c])
      else ChunksAcc(ws[1..], c, acc)
  }

  lemma {:induction false} ChunksAccAppends(ws: seq<string>, cur: seq<string>, acc: seq<seq<string>>)
    ensures ChunksAcc(ws, cur, acc) == acc + ChunksFrom(ws, cur)
    decreases |ws|
  {
    if |ws| > 0 {
      var c := cur + [ws[0]];
      if Closes(c) {
        ChunksAccAppends(ws[1..], [], acc + [c]);
        assert (acc + [c]) + ChunksFrom(ws[1..], []) == acc + ([c] + ChunksFrom(ws[1..], []));
      } else {
        ChunksAccAppends(ws[1..], c, acc);
      }
    }
  }

  lemma {:induction false} CharLenSnoc(c: seq<string>, w: string)
    ensures CharLen(c + [w]) == CharLen(c) + |w| + 1
  {
    assert (c + [w])[..|c|] == c;
  }

  /** `generate_subtitle_file`'s loop over the words of a long cue. */
  method ChunkWords(words: seq<string>) returns (chunks: seq<seq<string>>)
    ensures chunks == Chunks(words)
    ensures IsChunking(words, chunks)
  {
    chunks := [];
    var current: seq<string> := [];
    var currentLength := 0;
    for i := 0 to |words|
      invariant currentLength == CharLen(current)
      invariant ChunksAcc(words[i..], current, chunks) == ChunksAcc(words, [], [])
    {
      var word := words[i];
      assert words[i..][0] == word && words[i..][1..] == words[i + 1..];
      currentLength := currentLength + |word| + 1;
      CharLenSnoc(current, word);
      current := current + [word];
      if SentenceEnd(word) && |current| >= 5 {
        chunks := chunks + [current];
        current := [];
        currentLength := 0;
      } else if currentLength > 70 || |current| >= 12 {
        chunks := chunks + [current];
        current := [];
        currentLength := 0;
      }
    }
    if |current| > 0 {
      chunks := chunks + [current];
    }
    ChunksAccAppends(words, [], []);
    assert [] + Chunks(words) == Chunks(words);
    ChunksIsChunking(words);
  }

  /** A chunk cut at its first closing point has at most twelve words. */
  lemma {:induction false} AtMostTwelve(c: seq<string>)
    requires NoEarlyClose(c)
    ensures |c| <= 12
  {
    if |c| > 12 {
      TwelveCloses(c[..12]);
    }
  }

  lemma {:induction false} TwelveCloses(c: seq<string>)
    requires |c| >= 12
    ensures Closes(c)
  {
  }

  /** A sentence end at the fifth word or later is the last word of its chunk. */
  lemma {:induction false} SentenceEndLast(c: seq<string>, k: nat)
    requires NoEarlyClose(c) && 4 <= k < |c| && SentenceEnd(c[k])
    ensures k == |c| - 1
  {
    assert c[..k + 1][k] == c[k];
    assert Closes(c[..k + 1]);
  }

  /** The words of a chunking add up to the words chunked. */
  lemma {:induction false} FlattenLength(cs: seq<seq<string>>)
    ensures |Flatten(cs)| == SumLengths(cs)
  {
    if |cs| > 0 {
      FlattenLength(cs[1..]);
    }
  }

  function SumLengths(cs: seq<seq<string>>): nat {
    if |cs| == 0 then 0 else |cs[0]| + SumLengths(cs[1..])
  }

  lemma {:induction false} SumLengthsBound(cs: seq<seq<string>>)
    requires forall i :: 0 <= i < |cs| ==> |cs[i]| <= 12
    ensures SumLengths(cs) <= 12 * |cs|
  {
    if |cs| > 0 {
      SumLengthsBound(cs[1..]);
    }
  }

  /** More than fifteen words always make at least two chunks. */
  lemma {:induction false} LongTextSplits(words: seq<string>)
    requires |words| > 15
    ensures |Chunks(words)| >= 2
  {
    var cs := Chunks(words);
    ChunksIsChunking(words);
    forall i | 0 <= i < |cs|
      ensures |cs[i]| <= 12
    {
      AtMostTwelve(cs[i]);
    }
    FlattenLength(cs);
    SumLengthsBound(cs);
  }

  /** Two chunkings of the same words are the same: the promise fixes the result. */
  lemma {:induction false} ChunkingUnique(words: seq<string>, a: seq<seq<string>>, b: seq<seq<string>>)
    requires IsChunking(words, a) && IsChunking(words, b)
    ensures a == b
    decreases |words|
  {
    if |words| == 0 {
      EmptyChunking(a);
      EmptyChunking(b);
    } else {
      assert a == [a[0]] + a[1..];
      assert b == [b[0]] + b[1..];
      FlattenCons(a[0], a[1..]);
      FlattenCons(b[0], b[1..]);
      SameFirstChunk(words, a, b);
      assert a[0] == b[0];
      var rest := words[|a[0]|..];
      assert Flatten(a[1..]) == rest && Flatten(b[1..]) == rest;
      TailChunking(words, a);
      TailChunking(words, b);
      ChunkingUnique(rest, a[1..], b[1..]);
    }
  }

  lemma {:induction false} EmptyChunking(a: seq<seq<string>>)
    requires IsChunking([], a)
    ensures a == []
  {
  }

  /** Dropping the first chunk leaves a chunking of the remaining words. */
  lemma {:induction false} TailChunking(words: seq<string>, a: seq<seq<string>>)
    requires IsChunking(words, a) && |a| > 0
    ensures IsChunking(Flatten(a[1..]), a[1..])
  {
    forall i | 0 <= i < |a[1..]|
      ensures |a[1..][i]| > 0 && NoEarlyClose(a[1..][i])
    {
      assert a[1..][i] == a[i + 1];
    }
    forall i | 0 <= i < |a[1..]| - 1
      ensures Closes(a[1..][i])
    {
      assert a[1..][i] == a[i + 1];
    }
  }

  /** The length of the first chunk: the first prefix that closes, or all the words. */
  function FirstCut(words: seq<string>, k: nat): (n: nat)
    requires k <= |words|
    ensures k <= n <= |words|
    decreases |words| - k
  {
    if k == |words| then k
    else if Closes(words[..k + 1]) then k + 1
    else FirstCut(words, k + 1)
  }

  lemma {:induction false} FirstCutAt(words: seq<string>, k: nat, n: nat)
    requires k < n <= |words|
    requires forall j :: k < j < n ==> !Closes(words[..j])
    requires n == |words| || Closes(words[..n])
    ensures FirstCut(words, k) == n
    decreases n - k
  {
    if k + 1 < n {
      FirstCutAt(words, k + 1, n);
    }
  }

  /** The first chunk of any chunking is cut where `FirstCut` says. */
  lemma {:induction false} FirstChunkLength(words: seq<string>, a: seq<seq<string>>)
    requires IsChunking(words, a) && |a| > 0
    ensures |a[0]| == FirstCut(words, 0)
    ensures a[0] == words[..|a[0]|]
  {
    FlattenCons(a[0], a[1..]);
    assert a == [a[0]] + a[1..];
    var n := |a[0]|;
    assert a[0] == words[..n];
    forall j | 0 < j < n
      ensures !Closes(words[..j])
    {
      assert words[..j] == a[0][..j];
    }
    if |a| == 1 {
      assert a[1..] == [];
      assert words == a[0];
    } else {
      assert Closes(a[0]);
    }
    FirstCutAt(words, 0, n);
  }

  lemma {:induction false} SameFirstChunk(words: seq<string>, a: seq<seq<string>>, b: seq<seq<string>>)
    requires IsChunking(words, a) && IsChunking(words, b) && |a| > 0 && |b| > 0
    ensures a[0] == b[0]
  {
    FirstChunkLength(words, a);
    FirstChunkLength(words, b);
  }

  // ---------------------------------------------------------------------
  // Reading cues: `\[(\d+):(\d+)\]\s*(?:\{([^}]*)\}|([^[\n{][^\n]*))`
  // ---------------------------------------------------------------------

  /** A cue: its time code and the text of whichever group matched. */
  datatype Cue = Cue(stamp: Stamp, body: string)

  /** `[^[\n{]`: the characters a plain cue text may start with. */
  predicate PlainStart(c: char) {
    c != '[' && c != '\n' && c != '{'
  }

  /**
   * `(?:\{([^}]*)\}|([^[\n{][^\n]*))` tried after the first `k` characters,
   * then, giving back white space one character at a time, after fewer.
   * The result is the matched text and where the match ends.
   */
  function BodyFrom(s: string, k: nat): (r: Option<(string, nat)>)
    requires k <= |s|
    ensures r.Some? ==> r.value.1 <= |s|
    decreases k
  {
    if k < |s| && s[k] == '{' && '}' in s[k + 1..] then
      var j := IndexOfChar(s[k + 1..], '}');
      Some((s[k + 1..k + 1 + j], k + 2 + j))
    else if k < |s| && PlainStart(s[k]) then
      Some(LineFrom(s, k))
    else if k == 0 then None
    else BodyFrom(s, k - 1)
  }

  /** What follows the time code: `\s*` and then a braced text or a plain line. */
  function BodyAt(s: string): (r: Option<(string, nat)>)
    ensures r.Some? ==> r.value.1 <= |s|
  {
    BodyFrom(s, SpaceRun(s))
  }

  /** One match of the cue pattern at the start of `t`, and its length. */
  function CueAt(t: string): (r: Option<(Cue, nat)>)
    ensures r.Some? ==> 5 <= r.value.1 <= |t|
  {
    match StampAt(t)
    case None => None
    case Some(sm) =>
      match BodyAt(t[sm.len..])
      case None => None
      case Some(body) => Some((Cue(sm.stamp, body.0), sm.len + body.1))
  }

  /** `re.findall` of the cue pattern: each match resumes the search where the last ended. */
  function Cues(t: string): seq<Cue>
    decreases |t|
  {
    if |t| == 0 then []
    else match CueAt(t)
      case Some(m) => [m.0] + Cues(t[m.1..])
      case None => Cues(t[1..])
  }

  /** A cue text written on one line after `[m:ss] `. */
  predicate PlainBody(b: string) {
    |b| > 0 && !IsSpace(b[0]) && PlainStart(b[0]) && '\n' !in b
  }

  /** A cue as a script line: `[m:ss] text` and a line feed. */
  function CueLine(c: Cue): string {
    StampText(c.stamp) + LineTail(c.body)
  }

  function LineTail(b: string): string {
    " " + b + "\n"
  }

  function CueLines(cs: seq<Cue>): string {
    if |cs| == 0 then "" else CueLine(cs[0]) + CueLines(cs[1..])
  }

  lemma {:induction false} BodyOfLine(b: string, rest: string, s: string)
    requires PlainBody(b) && s == LineTail(b) + rest
    ensures BodyAt(s) == Some((b, 1 + |b|))
  {
    assert s[1..] == b + ("\n" + rest);
    assert SpaceRun(s[1..]) == 0;
    assert SpaceRun(s) == 1;
    assert s[1] == b[0];
    IndexOfCharAfter(b, '\n', rest);
    assert b + ['\n'] + rest == s[1..];
    assert LineFrom(s, 1) == (s[1..1 + |b|], 1 + |b|);
    assert s[1..1 + |b|] == b;
  }

  lemma {:induction false} CueAtParts(t: string, c: Cue, len: nat, u: string, n: nat, total: nat)
    requires StampAt(t) == Some(StampMatch(c.stamp, len)) && len <= |t| && t[len..] == u
    requires BodyAt(u) == Some((c.body, n)) && total == len + n
    ensures CueAt(t) == Some((c, total))
  {
  }

  /** A cue read at the start, the search resumes after it, skipping the line feed. */
  lemma {:induction false} CueThenLineFeed(t: string, c: Cue, n: nat, rest: string)
    requires CueAt(t) == Some((c, n))
    requires n <= |t| && t[n..] == "\n" + rest
    ensures Cues(t) == [c] + Cues(rest)
  {
    CuesAt(t, c, n);
    CuesSkipLineFeed(rest);
  }

  lemma {:induction false} CueAtLine(c: Cue, h: string, rest: string, t: string)
    requires PlainBody(c.body) && t == h + (LineTail(c.body) + rest)
    requires StampAt(t) == Some(StampMatch(c.stamp, |h|))
    ensures CueAt(t) == Some((c, |h| + 1 + |c.body|))
  {
    var u := LineTail(c.body) + rest;
    BodyOfLine(c.body, rest, u);
    CueAtParts(t, c, |h|, u, 1 + |c.body|, |h| + 1 + |c.body|);
  }

  lemma {:induction false} LineRemainder(h: string, b: string, rest: string, t: string)
    requires t == h + (LineTail(b) + rest)
    ensures |h| + 1 + |b| <= |t| && t[|h| + 1 + |b|..] == "\n" + rest
  {
    assert t == (h + " " + b) + ("\n" + rest);
  }

  lemma {:induction false} CuesAt(t: string, c: Cue, n: nat)
    requires CueAt(t) == Some((c, n))
    ensures n <= |t| && Cues(t) == [c] + Cues(t[n..])
  {
  }

  lemma {:induction false} CuesSkipLineFeed(rest: string)
    ensures Cues("\n" + rest) == Cues(rest)
  {
    assert CueAt("\n" + rest) == None;
    assert ("\n" + rest)[1..] == rest;
  }

  /** `h` is a time code that reads as `st` whatever follows it. */
  ghost predicate ReadsAs(h: string, st: Stamp) {
    forall x :: StampAt(h + x) == Some(StampMatch(st, |h|))
  }

  /** Cue lines whose time codes are written as `heads`. */
  function LinesWith(heads: seq<string>, cs: seq<Cue>): string
    requires |heads| == |cs|
  {
    if |cs| == 0 then "" else heads[0] + (LineTail(cs[0].body) + LinesWith(heads[1..], cs[1..]))
  }

  lemma {:induction false} LinesWithReadBack(heads: seq<string>, cs: seq<Cue>)
    requires |heads| == |cs|
    requires forall i :: 0 <= i < |cs| ==> ReadsAs(heads[i], cs[i].stamp) && PlainBody(cs[i].body)
    ensures Cues(LinesWith(heads, cs)) == cs
  {
    if |cs| > 0 {
      var h, rest := heads[0], LinesWith(heads[1..], cs[1..]);
      var t := h + (LineTail(cs[0].body) + rest);
      assert ReadsAs(h, cs[0].stamp) && PlainBody(cs[0].body);
      assert StampAt(t) == Some(StampMatch(cs[0].stamp, |h|));
      var n := |h| + 1 + |cs[0].body|;
      LineMatch(h, cs[0], rest, t, n);
      CueThenLineFeed(t, cs[0], n, rest);
      LinesWithReadBack(heads[1..], cs[1..]);
      assert cs == [cs[0]] + cs[1..];
    }
  }

  /** One cue line whose time code reads as the cue's: the cue is matched, and a line feed follows it. */
  lemma {:induction false} LineMatch(h: string, c: Cue, rest: string, t: string, n: nat)
    requires PlainBody(c.body) && t == h + (LineTail(c.body) + rest)
    requires StampAt(t) == Some(StampMatch(c.stamp, |h|)) && n == |h| + 1 + |c.body|
    ensures CueAt(t) == Some((c, n)) && n <= |t| && t[n..] == "\n" + rest
  {
    CueAtLine(c, h, rest, t);
    LineRemainder(h, c.body, rest, t);
  }

  lemma {:induction false} CueLinesAreLinesWith(cs: seq<Cue>, heads: seq<string>)
    requires |heads| == |cs| && forall i :: 0 <= i < |cs| ==> heads[i] == StampText(cs[i].stamp)
    ensures CueLines(cs) == LinesWith(heads, cs)
  {
    if |cs| > 0 {
      CueLinesAreLinesWith(cs[1..], heads[1..]);
    }
  }

  /** Cue lines read back as the cues they were written from. */
  lemma {:induction false} CueLinesReadBack(cs: seq<Cue>)
    requires forall i :: 0 <= i < |cs| ==> PlainBody(cs[i].body)
    ensures Cues(CueLines(cs)) == cs
  {
    var heads := seq(|cs|, i requires 0 <= i < |cs| => StampText(cs[i].stamp));
    forall i | 0 <= i < |cs|
      ensures ReadsAs(heads[i], cs[i].stamp)
    {
      forall x {
        StampTextRead(cs[i].stamp, x);
      }
    }
    CueLinesAreLinesWith(cs, heads);
    LinesWithReadBack(heads, cs);
  }

  // ---------------------------------------------------------------------
  // Timing the captions of one cue
  // ---------------------------------------------------------------------

  /** One subtitle before it is numbered. */
  datatype Caption = Caption(start: real, end: real, text: string)

  function MinReal(a: real, b: real): real {
    if a <= b then a else b
  }

  /** `max(len(words) / 2.2, 3)`: reading at 2.2 words a second, for at least 3 seconds. */
  function DisplayDuration(wordCount: nat): (d: real)
    ensures d >= 3.0 && d * 2.2 >= wordCount as real
    ensures d == 3.0 || d * 2.2 == wordCount as real
  {
    MaxReal(wordCount as real / 2.2, 3.0)
  }

  /** The caption of chunk `i`: its words joined by spaces, shown for `share` seconds from `start + i * share`. */
  function ChunkCaption(chunks: seq<seq<string>>, i: nat, start: real, share: real): Caption
    requires i < |chunks|
  {
    var chunkStart := start + i as real * share;
    Caption(chunkStart, chunkStart + share, Join(chunks[i], " "))
  }

  /** The captions of the chunks from the `i`-th on. */
  function ChunkCaptionsFrom(chunks: seq<seq<string>>, i: nat, start: real, share: real): (r: seq<Caption>)
    requires i <= |chunks|
    ensures |r| == |chunks| - i
    decreases |chunks| - i
  {
    if i == |chunks| then []
    else [ChunkCaption(chunks, i, start, share)] + ChunkCaptionsFrom(chunks, i + 1, start, share)
  }

  /** One caption per chunk, each an equal `share` of the display time, in order from `start`. */
  function ChunkCaptions(chunks: seq<seq<string>>, start: real, share: real): (r: seq<Caption>)
    ensures |r| == |chunks|
  {
    ChunkCaptionsFrom(chunks, 0, start, share)
  }

  lemma {:induction false} ChunkCaptionsFromAt(chunks: seq<seq<string>>, j: nat, start: real, share: real, i: nat)
    requires j <= i < |chunks|
    ensures ChunkCaptionsFrom(chunks, j, start, share)[i - j] == ChunkCaption(chunks, i, start, share)
    decreases i - j
  {
    if j < i {
      ChunkCaptionsFromAt(chunks, j + 1, start, share, i);
    }
  }

  /** The `i`-th chunk caption is the one `ChunkCaption` describes. */
  lemma {:induction false} ChunkCaptionAt(chunks: seq<seq<string>>, start: real, share: real, i: nat)
    requires i < |chunks|
    ensures ChunkCaptions(chunks, start, share)[i] == ChunkCaption(chunks, i, start, share)
  {
    ChunkCaptionsFromAt(chunks, 0, start, share, i);
  }

  /**
   * A short caption's end: `display` seconds after `start`, cut 0.1 seconds
   * before the next cue's time code if there is one.
   */
  function ShortEnd(cues: seq<Cue>, idx: nat, start: real, display: real): real
    requires 1 <= idx <= |cues|
  {
    var full := start + display;
    if idx < |cues| then MinReal(full, cues[idx].stamp.Total() as real - 0.1) else full
  }

  /** The cue at 1-based position `idx`, whose successor bounds a short caption. */
  function CueCaptions(cues: seq<Cue>, idx: nat): seq<Caption>
    requires 1 <= idx <= |cues|
  {
    var c := cues[idx - 1];
    var text := Strip(c.body);
    if |text| == 0 then []
    else
      var start := c.stamp.Total() as real;
      var words := Words(text);
      var display := DisplayDuration(|words|);
      if |words| > 15 then
        var chunks := Chunks(words);
        ChunkCaptions(chunks, start, display / |chunks| as real)
      else
        [Caption(start, ShortEnd(cues, idx, start, display), text)]
  }

  /** A cue whose text is blank after stripping gives no caption. */
  lemma {:induction false} BlankCueSkipped(cues: seq<Cue>, idx: nat)
    requires 1 <= idx <= |cues| && Strip(cues[idx - 1].body) == ""
    ensures CueCaptions(cues, idx) == []
  {
  }

  /**
   * A short cue (one to fifteen words) gives one caption with the whole
   * stripped text, from its time code for the display duration, cut 0.1
   * seconds before the next cue's time code.
   */
  lemma {:induction false} ShortCueCaption(cues: seq<Cue>, idx: nat)
    requires 1 <= idx <= |cues|
    requires var text := Strip(cues[idx - 1].body); |text| > 0 && |Words(text)| <= 15
    ensures var text := Strip(cues[idx - 1].body);
      var start := cues[idx - 1].stamp.Total() as real;
      var cs := CueCaptions(cues, idx);
      |cs| == 1 && cs[0].text == text && cs[0].start == start
      && cs[0].end <= start + DisplayDuration(|Words(text)|)
      && (idx < |cues| ==> cs[0].end <= cues[idx].stamp.Total() as real - 0.1)
      && (idx == |cues| ==> cs[0].end == start + DisplayDuration(|Words(text)|))
  {
  }

  /** The short-cue caption, with its end time given outright. */
  lemma {:induction false} ShortCueIs(cues: seq<Cue>, idx: nat, text: string, start: real, end: real)
    requires 1 <= idx <= |cues| && text == Strip(cues[idx - 1].body)
    requires |text| > 0 && |Words(text)| <= 15 && start == cues[idx - 1].stamp.Total() as real
    requires end == ShortEnd(cues, idx, start, DisplayDuration(|Words(text)|))
    ensures CueCaptions(cues, idx) == [Caption(start, end, text)]
  {
  }

  /** A cue of more than 15 words gives one caption per chunk of its words. */
  lemma {:induction false} LongCueIs(cues: seq<Cue>, idx: nat, text: string, words: seq<string>,
                                     chunks: seq<seq<string>>, start: real, duration: real)
    requires 1 <= idx <= |cues| && text == Strip(cues[idx - 1].body) && words == Words(text) && |words| > 15
    requires chunks == Chunks(words) && |chunks| > 0 && start == cues[idx - 1].stamp.Total() as real
    requires duration == DisplayDuration(|words|) / |chunks| as real
    ensures CueCaptions(cues, idx) == ChunkCaptions(chunks, start, duration)
  {
  }

  /** The cut can put the end before the start when the next cue starts within 0.1 seconds. */
  lemma {:induction false} ShortCueEndsEarly(cues: seq<Cue>)
    requires |cues| == 2 && cues[0].stamp == cues[1].stamp
    requires var text := Strip(cues[0].body); |text| > 0 && |Words(text)| <= 15
    ensures |CueCaptions(cues, 1)| == 1 && CueCaptions(cues, 1)[0].end < CueCaptions(cues, 1)[0].start
  {
  }

  /** Chunk captions share `total` equally and run end to end from `start`. */
  lemma {:induction false} ChunkCaptionsTiming(chunks: seq<seq<string>>, start: real, total: real)
    requires |chunks| > 0
    ensures var share := total / |chunks| as real;
      var cs := ChunkCaptions(chunks, start, share);
      cs[0].start == start
      && cs[|chunks| - 1].end == start + total
      && (forall i :: 0 <= i < |chunks| - 1 ==> cs[i].end == cs[i + 1].start)
      && (forall i :: 0 <= i < |chunks| ==> cs[i].text == Join(chunks[i], " ") && cs[i].end - cs[i].start == share)
  {
    var share := total / |chunks| as real;
    var cs := ChunkCaptions(chunks, start, share);
    var k := |chunks| - 1;
    forall i | 0 <= i < |chunks|
      ensures cs[i] == ChunkCaption(chunks, i, start, share)
    {
      ChunkCaptionAt(chunks, start, share, i);
    }
    assert cs[k].end == start + k as real * share + share;
    assert k as real * share + share == |chunks| as real * share;
    DivTimes(total, |chunks| as real);
  }

  /**
   * A long cue (more than fifteen words) is split into its chunks, at least
   * two, each shown for an equal share of the display duration, end to end
   * from the cue's time code.
   */
  lemma {:induction false} LongCueCaptions(cues: seq<Cue>, idx: nat)
    requires 1 <= idx <= |cues|
    requires |Words(Strip(cues[idx - 1].body))| > 15
    ensures var words := Words(Strip(cues[idx - 1].body));
      var chunks := Chunks(words);
      var start := cues[idx - 1].stamp.Total() as real;
      var display := DisplayDuration(|words|);
      var cs := CueCaptions(cues, idx);
      |cs| == |chunks| >= 2
      && cs[0].start == start
      && cs[|chunks| - 1].end == start + display
      && (forall i :: 0 <= i < |chunks| - 1 ==> cs[i].end == cs[i + 1].start)
      && (forall i :: 0 <= i < |chunks| ==>
        cs[i].text == Join(chunks[i], " ") && cs[i].end - cs[i].start == display / |chunks| as real)
  {
    var words := Words(Strip(cues[idx - 1].body));
    LongTextSplits(words);
    var chunks := Chunks(words);
    var display := DisplayDuration(|words|);
    var start := cues[idx - 1].stamp.Total() as real;
    LongCueIsChunked(cues, idx);
    ChunkCaptionsTiming(chunks, start, display);
  }

  lemma {:induction false} LongCueIsChunked(cues: seq<Cue>, idx: nat)
    requires 1 <= idx <= |cues|
    requires |Words(Strip(cues[idx - 1].body))| > 15
    ensures var words := Words(Strip(cues[idx - 1].body));
      var chunks := Chunks(words);
      |chunks| > 0
      && CueCaptions(cues, idx) == ChunkCaptions(chunks, cues[idx - 1].stamp.Total() as real,
        DisplayDuration(|words|) / |chunks| as real)
  {
    assert |Strip(cues[idx - 1].body)| > 0;
  }

  // ---------------------------------------------------------------------
  // Numbering the captions
  // ---------------------------------------------------------------------

  /** The captions of the first `n` cues, in order. */
  function CaptionsUpTo(cues: seq<Cue>, n: nat): seq<Caption>
    requires n <= |cues|
  {
    if n == 0 then [] else CaptionsUpTo(cues, n - 1) + CueCaptions(cues, n)
  }

  function Captions(cues: seq<Cue>): seq<Caption> {
    CaptionsUpTo(cues, |cues|)
  }

  /** The numbers the source writes: the cue's position plus the chunk's. */
  function NumbersAsWritten(cues: seq<Cue>, n: nat): (r: seq<int>)
    requires n <= |cues|
    ensures |r| == |CaptionsUpTo(cues, n)|
  {
    if n == 0 then []
    else NumbersAsWritten(cues, n - 1) + seq(|CueCaptions(cues, n)|, i => n + i)
  }

  /**
   * A long first cue followed by a non-blank one: the second chunk of the
   * first cue and the second cue both get number 2.
   */
  lemma {:induction false} NumbersAsWrittenRepeat(cues: seq<Cue>)
    requires |cues| >= 2
    requires |Words(Strip(cues[0].body))| > 15 && |Strip(cues[1].body)| > 0
    ensures var ns := NumbersAsWritten(cues, 2);
      var p := |CueCaptions(cues, 1)|;
      1 < p < |ns| && ns[1] == 2 && ns[p] == 2
  {
    LongCueCaptions(cues, 1);
    NonBlankCueCaptioned(cues, 2);
    NumbersAsWrittenFirst(cues);
    var p := |CueCaptions(cues, 1)|;
    var q := |CueCaptions(cues, 2)|;
    assert NumbersAsWritten(cues, 2) == NumbersAsWritten(cues, 1) + seq(q, i => 2 + i);
    TwoNumberedRuns(p, q);
  }

  /** Runs numbered on from 1 and from 2: the second number of the first run is the first of the second. */
  lemma {:induction false} TwoNumberedRuns(p: nat, q: nat)
    requires p > 1 && q > 0
    ensures var ns := seq(p, i => 1 + i) + seq(q, i => 2 + i);
      |ns| == p + q && ns[1] == 2 && ns[p] == 2
  {
    var ns := seq(p, i => 1 + i) + seq(q, i => 2 + i);
    assert ns[p] == seq(q, i => 2 + i)[0];
  }

  /** A cue whose text is not blank gives at least one caption. */
  lemma {:induction false} NonBlankCueCaptioned(cues: seq<Cue>, idx: nat)
    requires 1 <= idx <= |cues| && |Strip(cues[idx - 1].body)| > 0
    ensures |CueCaptions(cues, idx)| > 0
  {
  }

  /** The first cue's captions are numbered 1, 2, 3, ... as written. */
  lemma {:induction false} NumbersAsWrittenFirst(cues: seq<Cue>)
    requires |cues| >= 1
    ensures NumbersAsWritten(cues, 1) == seq(|CueCaptions(cues, 1)|, i => 1 + i)
  {
  }

  /** A numbered subtitle entry. */
  datatype SrtEntry = SrtEntry(number: nat, caption: Caption)

  /** The entries carry the captions in order, numbered on from `first`. */
  predicate NumberedFrom(entries: seq<SrtEntry>, first: nat, captions: seq<Caption>) {
    |entries| == |captions|
    && forall i :: 0 <= i < |entries| ==> entries[i] == SrtEntry(first + i, captions[i])
  }

  /** The entries numbered 1, 2, 3, ... in order. */
  predicate NumberedInOrder(entries: seq<SrtEntry>, captions: seq<Caption>) {
    NumberedFrom(entries, 1, captions)
  }

  lemma {:induction false} NumberedAppend(a: seq<SrtEntry>, b: seq<SrtEntry>, ca: seq<Caption>, cb: seq<Caption>)
    requires NumberedInOrder(a, ca) && NumberedFrom(b, |a| + 1, cb)
    ensures NumberedInOrder(a + b, ca + cb)
  {
  }

  /** The inner loop of a long cue: one entry per chunk, numbered on from `first`. */
  method NumberChunks(chunks: seq<seq<string>>, startSec: real, chunkDuration: real, first: nat)
    returns (entries: seq<SrtEntry>)
    ensures NumberedFrom(entries, first, ChunkCaptions(chunks, startSec, chunkDuration))
  {
    entries := [];
    ghost var cs := ChunkCaptions(chunks, startSec, chunkDuration);
    for i := 0 to |chunks|
      invariant NumberedFrom(entries, first, cs[..i])
    {
      var chunkStart := startSec + i as real * chunkDuration;
      var chunkEnd := chunkStart + chunkDuration;
      entries := entries + [SrtEntry(first + i, Caption(chunkStart, chunkEnd, Join(chunks[i], " ")))];
      ChunkCaptionAt(chunks, startSec, chunkDuration, i);
      assert cs[..i + 1] == cs[..i] + [cs[i]];
    }
    assert cs[..|chunks|] == cs;
  }

  /** The body of `generate_subtitle_file`'s loop: the entries for cue `idx`, numbered on from `first`. */
  method CueEntries(matches: seq<Cue>, idx: nat, first: nat) returns (added: seq<SrtEntry>)
    requires 1 <= idx <= |matches|
    ensures NumberedFrom(added, first, CueCaptions(matches, idx))
  {
    var c := matches[idx - 1];
    var text := Strip(c.body);
    added := [];
    if |text| > 0 {
      var startSec := c.stamp.Total() as real;
      var words := Words(text);
      if |words| > 15 {
        added := LongCueEntries(matches, idx, text, words, startSec, first);
      } else {
        added := ShortCueEntry(matches, idx, text, words, startSec, first);
      }
    } else {
      BlankCueSkipped(matches, idx);
    }
  }

  /** A cue of more than 15 words: its words chunked, the display time shared evenly among the chunks. */
  method LongCueEntries(matches: seq<Cue>, idx: nat, text: string, words: seq<string>, startSec: real, first: nat)
    returns (added: seq<SrtEntry>)
    requires 1 <= idx <= |matches| && text == Strip(matches[idx - 1].body) && words == Words(text)
    requires |words| > 15 && startSec == matches[idx - 1].stamp.Total() as real
    ensures NumberedFrom(added, first, CueCaptions(matches, idx))
  {
    var displayDuration := DisplayDuration(|words|);
    var chunks := ChunkWords(words);
    var chunkDuration := displayDuration / |chunks| as real;
    added := NumberChunks(chunks, startSec, chunkDuration, first);
    LongCueIs(matches, idx, text, words, chunks, startSec, chunkDuration);
  }

  /** A non-blank cue of at most 15 words: one entry, cut short before the next cue starts. */
  method ShortCueEntry(matches: seq<Cue>, idx: nat, text: string, words: seq<string>, startSec: real, first: nat)
    returns (added: seq<SrtEntry>)
    requires 1 <= idx <= |matches| && text == Strip(matches[idx - 1].body) && words == Words(text)
    requires |text| > 0 && |words| <= 15 && startSec == matches[idx - 1].stamp.Total() as real
    ensures NumberedFrom(added, first, CueCaptions(matches, idx))
  {
    var displayDuration := DisplayDuration(|words|);
    var endSec := startSec + displayDuration;
    if idx < |matches| {
      var nextSecTotal := matches[idx].stamp.Total() as real;
      endSec := MinReal(endSec, nextSecTotal - 0.1);
    }
    added := [SrtEntry(first, Caption(startSec, endSec, text))];
    ShortCueIs(matches, idx, text, startSec, endSec);
  }

  /**
   * `generate_subtitle_file`'s loop over the cues, numbering the entries
   * consecutively.
   */
  method SubtitleEntries(script: string) returns (entries: seq<SrtEntry>)
    ensures NumberedInOrder(entries, Captions(Cues(script)))
  {
    var matches := Cues(script);
    ghost var parts := CaptionParts(matches);
    entries := CuesEntries(matches, parts);
    PartsConcat(parts, matches, |matches|);
    assert parts[..|matches|] == parts;
  }

  /**
   * `parts` lists the captions of each cue in turn.  The link to
   * `CueCaptions` is only drawn where a cue's captions are named.
   */
  predicate PerCue(parts: seq<seq<Caption>>, cues: seq<Cue>) {
    |parts| == |cues|
    && forall idx {:trigger CueCaptions(cues, idx)} :: 1 <= idx <= |cues| ==> parts[idx - 1] == CueCaptions(cues, idx)
  }

  /** The captions of the parts, one part after the other. */
  function Concat(parts: seq<seq<Caption>>): seq<Caption> {
    if |parts| == 0 then [] else Concat(parts[..|parts| - 1]) + parts[|parts| - 1]
  }

  lemma {:induction false} ConcatSnoc(parts: seq<seq<Caption>>, n: nat)
    requires 1 <= n <= |parts|
    ensures Concat(parts[..n]) == Concat(parts[..n - 1]) + parts[n - 1]
  {
    assert parts[..n][..n - 1] == parts[..n - 1];
  }

  lemma {:induction false} CaptionParts(cues: seq<Cue>) returns (parts: seq<seq<Caption>>)
    ensures PerCue(parts, cues)
  {
    var f := idx => if 1 <= idx <= |cues| then CueCaptions(cues, idx) else [];
    parts := PartsOf(f, |cues|);
    forall idx | 1 <= idx <= |cues|
      ensures parts[idx - 1] == CueCaptions(cues, idx)
    {
      var i := idx - 1;
      assert parts[i] == f(i + 1);
    }
  }

  /** The values of `f` at 1 to `n`, in order. */
  lemma {:induction false} PartsOf(f: nat -> seq<Caption>, n: nat) returns (parts: seq<seq<Caption>>)
    ensures |parts| == n
    ensures forall i :: 0 <= i < n ==> parts[i] == f(i + 1)
  {
    if n == 0 {
      parts := [];
    } else {
      var before := PartsOf(f, n - 1);
      parts := before + [f(n)];
      assert forall i :: 0 <= i < n - 1 ==> parts[i] == before[i];
    }
  }

  /** The parts of the first `n` cues concatenate to their captions. */
  lemma {:induction false} PartsConcat(parts: seq<seq<Caption>>, cues: seq<Cue>, n: nat)
    requires PerCue(parts, cues) && n <= |cues|
    ensures Concat(parts[..n]) == CaptionsUpTo(cues, n)
  {
    if n > 0 {
      PartsConcat(parts, cues, n - 1);
      ConcatSnoc(parts, n);
      assert parts[n - 1] == CueCaptions(cues, n);
    }
  }

  /** The loop itself, over the cues the pattern matched, with `parts` their captions. */
  method CuesEntries(matches: seq<Cue>, ghost parts: seq<seq<Caption>>) returns (entries: seq<SrtEntry>)
    requires PerCue(parts, matches)
    ensures NumberedInOrder(entries, Concat(parts))
  {
    entries := [];
    for n := 0 to |matches|
      invariant NumberedInOrder(entries, Concat(parts[..n]))
    {
      entries := AppendCue(matches, n + 1, entries, parts);
    }
    assert parts[..|matches|] == parts;
  }

  /** One pass of the loop: the entries of cue `idx` appended, numbered on after those before. */
  method AppendCue(matches: seq<Cue>, idx: nat, entries: seq<SrtEntry>, ghost parts: seq<seq<Caption>>)
    returns (more: seq<SrtEntry>)
    requires 1 <= idx <= |matches| && PerCue(parts, matches)
    requires NumberedInOrder(entries, Concat(parts[..idx - 1]))
    ensures NumberedInOrder(more, Concat(parts[..idx]))
  {
    var added := CueEntries(matches, idx, |entries| + 1);
    assert parts[idx - 1] == CueCaptions(matches, idx);
    ConcatSnoc(parts, idx);
    NumberedAppend(entries, added, Concat(parts[..idx - 1]), parts[idx - 1]);
    more := entries + added;
  }

  // ---------------------------------------------------------------------
  // Writing the entries: `HH:MM:SS,mmm` timestamps and the SRT text
  // ---------------------------------------------------------------------

  /** Python's `int(x)`: truncation toward zero. */
  function Trunc(x: real): int {
    if x >= 0.0 then x.Floor else -((-x).Floor)
  }

  /** Leading zeros up to `width` characters. */
  function ZeroPad(s: string, width: nat): (r: string)
    ensures |r| == if |s| >= width then |s| else width
    decreases width - |s|
  {
    if |s| >= width then s else ZeroPad("0" + s, width)
  }

  /** `f"{n:0<width>d}"`: the sign counts toward the width. */
  function PadInt(n: int, width: nat): string {
    if n < 0 then "-" + ZeroPad(NatToString(-n), if width > 0 then width - 1 else 0)
    else ZeroPad(NatToString(n), width)
  }

  /** The four fields of a timestamp: hours, minutes, seconds, milliseconds. */
  function TimeFields(t: real): (int, int, int, int) {
    var n := Trunc(t);
    (n / 3600, (n % 3600) / 60, n % 60, Trunc(t * 1000.0) % 1000)
  }

  /** The SRT timestamp `HH:MM:SS,mmm` of a time in seconds. */
  function Timestamp(t: real): string {
    var f := TimeFields(t);
    PadInt(f.0, 2) + ":" + PadInt(f.1, 2) + ":" + PadInt(f.2, 2) + "," + PadInt(f.3, 3)
  }

  /** The fields add back up to the whole seconds, each within its range. */
  lemma {:induction false} TimeFieldsSplit(t: real)
    ensures var f := TimeFields(t);
      f.0 * 3600 + f.1 * 60 + f.2 == Trunc(t)
      && 0 <= f.1 < 60 && 0 <= f.2 < 60 && 0 <= f.3 < 1000
  {
    var n := Trunc(t);
    assert n == (n / 3600) * 3600 + n % 3600;
    assert n % 3600 == ((n % 3600) / 60) * 60 + (n % 3600) % 60;
    assert (n % 3600) % 60 == n % 60;
  }

  lemma {:induction false} ParseLeadingZero(s: string)
    requires AllDigits(s)
    ensures AllDigits("0" + s) && ParseNat("0" + s) == ParseNat(s)
    decreases |s|
  {
    if |s| > 0 {
      assert ("0" + s)[..|s|] == "0" + s[..|s| - 1];
      ParseLeadingZero(s[..|s| - 1]);
    }
  }

  lemma {:induction false} ZeroPadValue(s: string, width: nat)
    requires AllDigits(s)
    ensures AllDigits(ZeroPad(s, width)) && ParseNat(ZeroPad(s, width)) == ParseNat(s)
    decreases width - |s|
  {
    if |s| < width {
      ParseLeadingZero(s);
      ZeroPadValue("0" + s, width);
    }
  }

  function Pow10(k: nat): nat {
    if k == 0 then 1 else 10 * Pow10(k - 1)
  }

  lemma {:induction false} NatToStringLength(n: nat, k: nat)
    requires 1 <= k && n < Pow10(k)
    ensures |NatToString(n)| <= k
  {
    if n >= 10 {
      NatToStringLength(n / 10, k - 1);
    }
  }

  /** A padded field of a number below `10^width` is `width` digits that read back as the number. */
  lemma {:induction false} PadIntReadsBack(n: nat, width: nat)
    requires 1 <= width && n < Pow10(width)
    ensures |PadInt(n, width)| == width && AllDigits(PadInt(n, width))
    ensures ParseNat(PadInt(n, width)) == n
  {
    NatToStringLength(n, width);
    ZeroPadValue(NatToString(n), width);
  }

  /**
   * Below 100 hours a timestamp is twelve characters whose hour, minute and
   * second fields read back as the whole seconds of the time.
   */
  lemma {:induction false} TimestampReadsBack(t: real)
    requires 0.0 <= t < 360000.0
    ensures var s := Timestamp(t);
      |s| == 12 && s[2] == ':' && s[5] == ':' && s[8] == ','
      && AllDigits(s[0..2]) && AllDigits(s[3..5]) && AllDigits(s[6..8]) && AllDigits(s[9..12])
      && ParseNat(s[0..2]) * 3600 + ParseNat(s[3..5]) * 60 + ParseNat(s[6..8]) == Trunc(t)
      && ParseNat(s[9..12]) == TimeFields(t).3
  {
    var f := TimeFields(t);
    TimeFieldsSplit(t);
    assert 0 <= Trunc(t) < 360000;
    assert 0 <= f.0 < 100;
    PadIntReadsBack(f.0, 2);
    PadIntReadsBack(f.1, 2);
    PadIntReadsBack(f.2, 2);
    PadIntReadsBack(f.3, 3);
    FieldsLayout(PadInt(f.0, 2), PadInt(f.1, 2), PadInt(f.2, 2), PadInt(f.3, 3));
  }

  /** Where the four fields sit in `HH:MM:SS,mmm`. */
  lemma {:induction false} FieldsLayout(a: string, b: string, c: string, d: string)
    requires |a| == 2 && |b| == 2 && |c| == 2 && |d| == 3
    ensures var s := a + ":" + b + ":" + c + "," + d;
      |s| == 12 && s[2] == ':' && s[5] == ':' && s[8] == ','
      && s[0..2] == a && s[3..5] == b && s[6..8] == c && s[9..12] == d
  {
    var s := a + ":" + b + ":" + c + "," + d;
    assert s[0..2] == a;
    assert s[3..5] == b;
    assert s[6..8] == c;
    assert s[9..12] == d;
  }

  /** One SRT block: the number, the time range and the text, each on its own line. */
  function EntryText(e: SrtEntry): string {
    NatToString(e.number) + "\n" + Timestamp(e.caption.start) + " --> "
    + Timestamp(e.caption.end) + "\n" + e.caption.text + "\n"
  }

  /**
   * A block reads back: the number's digits and a line feed, the two
   * timestamps around ` --> ` and a line feed, then the text and a final
   * line feed.
   */
  lemma {:induction false} EntryTextReadsBack(e: SrtEntry)
    requires 0.0 <= e.caption.start < 360000.0 && 0.0 <= e.caption.end < 360000.0
    ensures var s := EntryText(e); var k := |NatToString(e.number)|;
      |s| == k + 32 + |e.caption.text|
      && AllDigits(s[..k]) && ParseNat(s[..k]) == e.number && s[k] == '\n'
      && s[k + 1..k + 13] == Timestamp(e.caption.start) && s[k + 13..k + 18] == " --> "
      && s[k + 18..k + 30] == Timestamp(e.caption.end) && s[k + 30] == '\n'
      && s[k + 31..|s| - 1] == e.caption.text && s[|s| - 1] == '\n'
  {
    TimestampLength(e.caption.start);
    TimestampLength(e.caption.end);
    EntryLayout(NatToString(e.number), Timestamp(e.caption.start), Timestamp(e.caption.end), e.caption.text);
  }

  lemma {:induction false} TimestampLength(t: real)
    requires 0.0 <= t < 360000.0
    ensures |Timestamp(t)| == 12
  {
    TimestampReadsBack(t);
  }

  /** Where the pieces of a block sit. */
  lemma {:induction false} EntryLayout(a: string, b: string, c: string, d: string)
    requires |b| == 12 && |c| == 12
    ensures var s := a + "\n" + b + " --> " + c + "\n" + d + "\n"; var k := |a|;
      |s| == k + 32 + |d| && s[..k] == a && s[k] == '\n'
      && s[k + 1..k + 13] == b && s[k + 13..k + 18] == " --> "
      && s[k + 18..k + 30] == c && s[k + 30] == '\n'
      && s[k + 31..|s| - 1] == d && s[|s| - 1] == '\n'
  {
    var s := a + "\n" + b + " --> " + c + "\n" + d + "\n";
    var k := |a|;
    assert s[..k] == a;
    assert s[k + 1..k + 13] == b;
    assert s[k + 13..k + 18] == " --> ";
    assert s[k + 18..k + 30] == c;
    assert s[k + 31..|s| - 1] == d;
  }

  /** `"\n".join(subtitle_entries)`: the blocks, a blank line between two. */
  function SubtitleFile(entries: seq<SrtEntry>): string {
    Join(Blocks(entries), "\n")
  }

  function Blocks(entries: seq<SrtEntry>): (bs: seq<string>)
    ensures |bs| == |entries|
  {
    seq(|entries|, i requires 0 <= i < |entries| => EntryText(entries[i]))
  }

  /** A file of one entry is that entry's block. */
  lemma {:induction false} SubtitleFileOne(e: SrtEntry)
    ensures SubtitleFile([e]) == EntryText(e)
  {
    assert Blocks([e]) == [EntryText(e)];
  }

  /** One more entry adds a line feed, which leaves a blank line after the block before, and its block. */
  lemma {:induction false} SubtitleFileSnoc(entries: seq<SrtEntry>, e: SrtEntry)
    requires |entries| > 0
    ensures SubtitleFile(entries + [e]) == SubtitleFile(entries) + "\n" + EntryText(e)
  {
    assert Blocks(entries + [e]) == Blocks(entries) + [EntryText(e)];
    JoinSnoc(Blocks(entries), EntryText(e), "\n");
  }

  // ---------------------------------------------------------------------
  // Scene timeline: `create_timing_data`
  // ---------------------------------------------------------------------

  datatype Segment = Segment(start: real, end: real)

  function MaxReal(a: real, b: real): real {
    if a >= b then a else b
  }

  /** `max(duration_minutes * 60, scene_count * 20)` */
  function PlannedTotal(sceneCount: nat, durationMinutes: int): (t: real)
    ensures t >= durationMinutes as real * 60.0 && t >= sceneCount as real * 20.0
  {
    MaxReal(durationMinutes as real * 60.0, sceneCount as real * 20.0)
  }

  function Repeat(x: real, n: nat): (r: seq<real>)
    ensures |r| == n && forall i :: 0 <= i < n ==> r[i] == x
  {
    if n == 0 then [] else [x] + Repeat(x, n - 1)
  }

  /** The first and the last of three scenes or more: 15% of the total, at least 30 seconds. */
  function EdgeDuration(total: real): (d: real)
    ensures d >= 30.0 && d >= total * 0.15
  {
    MaxReal(total * 0.15, 30.0)
  }

  /**
   * Each of the `middleSections` middle scenes: an equal share of what the
   * edges leave, the total growing so that each gets at least 45 seconds.
   */
  function MiddleDuration(total: real, middleSections: nat): real
    requires middleSections > 0
  {
    var remaining := total - EdgeDuration(total) - EdgeDuration(total);
    var remaining' := if remaining < middleSections as real * 45.0
      then remaining + (middleSections as real * 45.0 - remaining) else remaining;
    remaining' / middleSections as real
  }

  lemma {:induction false} MiddleDurationBounds(total: real, middleSections: nat)
    requires middleSections > 0
    ensures MiddleDuration(total, middleSections) >= 45.0
    ensures middleSections as real * MiddleDuration(total, middleSections)
      >= total - EdgeDuration(total) - EdgeDuration(total)
  {
    var remaining := total - EdgeDuration(total) - EdgeDuration(total);
    var m := middleSections as real;
    var remaining' := if remaining < m * 45.0 then m * 45.0 else remaining;
    assert MiddleDuration(total, middleSections) == remaining' / m;
    DivTimes(remaining', m);
    DivAtLeast(remaining', m, 45.0);
  }

  lemma {:induction false} DivTimes(r: real, m: real)
    requires m > 0.0
    ensures (r / m) * m == r && m * (r / m) == r
  {
  }

  lemma {:induction false} DivAtLeast(r: real, m: real, b: real)
    requires m > 0.0 && r >= m * b
    ensures r / m >= b
  {
    var q := r / m;
    DivTimes(r, m);
    assert q < b ==> (b - q) * m > 0.0;
  }

  /**
   * The length of each scene: one scene takes the whole total, two split it
   * 45/55, and from three on the edges and the middle scenes as above.
   */
  function SectionDurations(sceneCount: nat, durationMinutes: int): (ds: seq<real>)
    requires sceneCount > 0
    ensures |ds| == sceneCount
  {
    var total := PlannedTotal(sceneCount, durationMinutes);
    if sceneCount == 1 then [total]
    else if sceneCount == 2 then [total * 0.45, total - total * 0.45]
    else
      [EdgeDuration(total)] + Repeat(MiddleDuration(total, sceneCount - 2), sceneCount - 2)
      + [EdgeDuration(total)]
  }

  /** Sum of the first entries, as the loop's running `current_time`. */
  function Sum(ds: seq<real>): real {
    if |ds| == 0 then 0.0 else Sum(ds[..|ds| - 1]) + ds[|ds| - 1]
  }

  /** Segment `i` starts where the durations before it end and lasts `ds[i]`. */
  predicate Laid(segments: seq<Segment>, ds: seq<real>) {
    |segments| == |ds|
    && forall i :: 0 <= i < |ds| ==>
      segments[i].start == Sum(ds[..i]) && segments[i].end == Sum(ds[..i]) + ds[i]
  }

  /** `create_timing_data`: one segment per scene, laid end to end from 0. */
  method CreateTimingData(sceneCount: nat, durationMinutes: int) returns (segments: seq<Segment>)
    ensures sceneCount == 0 ==> segments == []
    ensures sceneCount > 0 ==> Laid(segments, SectionDurations(sceneCount, durationMinutes))
  {
    if sceneCount == 0 {
      return [];
    }
    var totalDuration := PlannedTotal(sceneCount, durationMinutes);
    if sceneCount == 1 {
      segments := [Segment(0.0, totalDuration)];
      LaidOne(totalDuration);
    } else if sceneCount == 2 {
      var first := totalDuration * 0.45;
      segments := [Segment(0.0, first), Segment(first, totalDuration)];
      LaidTwo(first, totalDuration - first);
    } else {
      var first := MaxReal(totalDuration * 0.15, 30.0);
      var last := MaxReal(totalDuration * 0.15, 30.0);
      var remainingTime := totalDuration - first - last;
      var middleSections := sceneCount - 2;
      if remainingTime < middleSections as real * 45.0 {
        var additionalNeeded := middleSections as real * 45.0 - remainingTime;
        totalDuration := totalDuration + additionalNeeded;
        remainingTime := remainingTime + additionalNeeded;
      }
      var middle := remainingTime / middleSections as real;
      var sectionDurations := [first] + Repeat(middle, middleSections) + [last];
      assert first == EdgeDuration(PlannedTotal(sceneCount, durationMinutes));
      assert middle == MiddleDuration(PlannedTotal(sceneCount, durationMinutes), middleSections);
      segments := LayOut(sectionDurations);
    }
  }

  /** The loop of `create_timing_data` that lays the durations end to end. */
  method LayOut(sectionDurations: seq<real>) returns (segments: seq<Segment>)
    ensures Laid(segments, sectionDurations)
  {
    segments := [];
    var currentTime := 0.0;
    for i := 0 to |sectionDurations|
      invariant currentTime == Sum(sectionDurations[..i])
      invariant Laid(segments, sectionDurations[..i])
    {
      var duration := sectionDurations[i];
      segments := segments + [Segment(currentTime, currentTime + duration)];
      currentTime := currentTime + duration;
      LaidStep(segments, sectionDurations, i);
    }
    assert sectionDurations[..|sectionDurations|] == sectionDurations;
  }

  lemma {:induction false} LaidOne(x: real)
    ensures Laid([Segment(0.0, x)], [x])
  {
    assert [x][..0] == [];
  }

  lemma {:induction false} LaidTwo(x: real, y: real)
    ensures Laid([Segment(0.0, x), Segment(x, x + y)], [x, y])
  {
    assert [x, y][..0] == [];
    assert [x, y][..1] == [x] && [x][..0] == [];
    assert Sum([x]) == x;
  }

  lemma {:induction false} LaidStep(segments: seq<Segment>, ds: seq<real>, i: nat)
    requires i < |ds| && |segments| == i + 1
    requires Laid(segments[..i], ds[..i])
    requires segments[i] == Segment(Sum(ds[..i]), Sum(ds[..i]) + ds[i])
    ensures Laid(segments, ds[..i + 1])
  {
    assert ds[..i + 1][..i] == ds[..i];
    forall j | 0 <= j < i + 1
      ensures segments[j].start == Sum(ds[..i + 1][..j])
      ensures segments[j].end == Sum(ds[..i + 1][..j]) + ds[..i + 1][j]
    {
      if j < i {
        assert segments[..i][j] == segments[j];
        assert ds[..i][..j] == ds[..i + 1][..j];
      }
    }
  }

  /** Laid-out segments start at 0, each ends where the next starts, and the last ends at the sum. */
  lemma {:induction false} LaidContiguous(segments: seq<Segment>, ds: seq<real>)
    requires Laid(segments, ds) && |ds| > 0
    ensures segments[0].start == 0.0
    ensures forall i :: 0 <= i < |ds| - 1 ==> segments[i].end == segments[i + 1].start
    ensures segments[|ds| - 1].end == Sum(ds)
  {
    assert ds[..0] == [];
    forall i | 0 <= i < |ds| - 1
      ensures segments[i].end == segments[i + 1].start
    {
      SumPrefixStep(ds, i);
    }
    SumPrefixStep(ds, |ds| - 1);
    assert ds[..|ds|] == ds;
  }

  lemma {:induction false} SumPrefixStep(ds: seq<real>, i: nat)
    requires i < |ds|
    ensures Sum(ds[..i + 1]) == Sum(ds[..i]) + ds[i]
  {
    assert ds[..i + 1][..i] == ds[..i];
  }

  lemma {:induction false} SumRepeat(x: real, n: nat)
    ensures Sum(Repeat(x, n)) == n as real * x
  {
    if n > 0 {
      SumRepeat(x, n - 1);
      SumCons(x, Repeat(x, n - 1));
    }
  }

  lemma {:induction false} SumCons(x: real, ds: seq<real>)
    ensures Sum([x] + ds) == x + Sum(ds)
    decreases |ds|
  {
    if |ds| > 0 {
      assert ([x] + ds)[..|[x] + ds| - 1] == [x] + ds[..|ds| - 1];
      SumCons(x, ds[..|ds| - 1]);
    } else {
      assert [x] + ds == [x];
      assert [x][..0] == [];
    }
  }

  lemma {:induction false} SumAppend(ds: seq<real>, x: real)
    ensures Sum(ds + [x]) == Sum(ds) + x
  {
    assert (ds + [x])[..|ds|] == ds;
  }

  /** The whole plan is at least `duration_minutes * 60` and at least 20 seconds per scene. */
  lemma {:induction false} SectionDurationsTotal(sceneCount: nat, durationMinutes: int)
    requires sceneCount > 0
    ensures Sum(SectionDurations(sceneCount, durationMinutes)) >= PlannedTotal(sceneCount, durationMinutes)
  {
    var ds := SectionDurations(sceneCount, durationMinutes);
    var total := PlannedTotal(sceneCount, durationMinutes);
    if sceneCount == 1 {
      SumCons(total, []);
    } else if sceneCount == 2 {
      assert ds == [total * 0.45] + [total - total * 0.45];
      SumCons(total * 0.45, [total - total * 0.45]);
      SumCons(total - total * 0.45, []);
    } else {
      ManySectionsTotal(sceneCount, durationMinutes);
    }
  }

  lemma {:induction false} ManySectionsTotal(sceneCount: nat, durationMinutes: int)
    requires sceneCount >= 3
    ensures Sum(SectionDurations(sceneCount, durationMinutes)) >= PlannedTotal(sceneCount, durationMinutes)
  {
    var total := PlannedTotal(sceneCount, durationMinutes);
    var edge := EdgeDuration(total);
    var m := sceneCount - 2;
    var middle := MiddleDuration(total, m);
    var ds := SectionDurations(sceneCount, durationMinutes);
    var mids := Repeat(middle, m);
    assert ds == [edge] + mids + [edge];
    SumCons(edge, mids);
    SumAppend([edge] + mids, edge);
    assert Sum(ds) == edge + Sum(mids) + edge;
    MiddlesCover(total, m);
  }

  /** The middle scenes together fill at least what the edges leave of the total. */
  lemma {:induction false} MiddlesCover(total: real, middleSections: nat)
    requires middleSections > 0
    ensures Sum(Repeat(MiddleDuration(total, middleSections), middleSections))
      >= total - EdgeDuration(total) - EdgeDuration(total)
  {
    SumRepeat(MiddleDuration(total, middleSections), middleSections);
    MiddleDurationBounds(total, middleSections);
  }

  /**
   * With three scenes or more the first and the last last at least 30
   * seconds and each middle one at least 45.
   */
  lemma {:induction false} SectionDurationsMinimums(sceneCount: nat, durationMinutes: int)
    requires sceneCount >= 3
    ensures var ds := SectionDurations(sceneCount, durationMinutes);
      ds[0] >= 30.0 && ds[sceneCount - 1] >= 30.0
      && forall i :: 1 <= i < sceneCount - 1 ==> ds[i] >= 45.0
  {
    var total := PlannedTotal(sceneCount, durationMinutes);
    MiddleDurationBounds(total, sceneCount - 2);
  }
}
