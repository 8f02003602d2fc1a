/**
 * Document study (doc_study.py): split a document into chunks with a character window and
 * add each chunk to the knowledge engine.
 *
 * The chunker is specified as a walk over steps. Each non-blank line (stripped) is one
 * paragraph; a paragraph the sentence tokenizer splits into fewer than two sentences is
 * packed whole; a long one (at least the window) packs its sentences one by one; any other
 * paragraph restarts the chunk. Packing a piece appends " " + piece to the current chunk
 * when the two lengths fit the window, and otherwise flushes the chunk and starts over from
 * the piece. Flushing adds the stripped chunk unless it is blank.
 */
module Study {
  import opened Wrappers
  import opened Dicts
  import opened Json
  import opened PyText
  import opened KnowledgeDb
  import opened Knowledge

  datatype Step = Pack(piece: string) | Restart(piece: string)

  function PackAll(sentences: seq<string>): (r: seq<Step>)
    ensures |r| == |sentences| && forall i :: 0 <= i < |r| ==> r[i] == Pack(sentences[i])
  {
    if sentences == [] then []
    else PackAll(sentences[..|sentences| - 1]) + [Pack(sentences[|sentences| - 1])]
  }

  /** The steps for one stripped, non-blank paragraph p whose sentences are given. */
  function ParagraphSteps(p: string, sentences: seq<string>, w: int): seq<Step>
  {
    if |sentences| < 2 then [Pack(p)]
    else if |p| >= w then PackAll(sentences)
    else [Restart(p)]
  }

  /** The steps for a list of lines: blank lines contribute none. */
  function DocSteps(lines: seq<string>, tokenize: string -> seq<string>, w: int): seq<Step>
  {
    if lines == [] then []
    else DocSteps(lines[..|lines| - 1], tokenize, w) + LineSteps(lines[|lines| - 1], tokenize, w)
  }

  /** One line of the document: skipped when blank, otherwise its stripped text is a paragraph. */
  function LineSteps(line: string, tokenize: string -> seq<string>, w: int): seq<Step>
  {
    var p := Strip(line);
    if p == [] then [] else ParagraphSteps(p, tokenize(p), w)
  }

  lemma DocStepsSnoc(lines: seq<string>, line: string, tokenize: string -> seq<string>, w: int)
    ensures DocSteps(lines + [line], tokenize, w) == DocSteps(lines, tokenize, w) + LineSteps(line, tokenize, w)
  {
    assert (lines + [line])[..|lines|] == lines;
  }

  lemma PackAllPrefix(sentences: seq<string>, j: nat)
    requires j < |sentences|
    ensures PackAll(sentences[..j + 1]) == PackAll(sentences[..j]) + [Pack(sentences[j])]
  {
    assert sentences[..j + 1][..j] == sentences[..j];
  }

  lemma DocStepsPrefix(lines: seq<string>, i: nat, tokenize: string -> seq<string>, w: int)
    requires i < |lines|
    ensures DocSteps(lines[..i + 1], tokenize, w) == DocSteps(lines[..i], tokenize, w) + LineSteps(lines[i], tokenize, w)
  {
    assert lines[..i + 1][..i] == lines[..i];
  }

  /** " " + g[0] + " " + g[1] + ... */
  function Glue(g: seq<string>): string
  {
    if g == [] then "" else Glue(g[..|g| - 1]) + " " + g[|g| - 1]
  }

  /** The pieces of a group joined by single spaces. */
  function Joined(g: seq<string>): string
    requires g != []
  {
    g[0] + Glue(g[1..])
  }

  /**
   * The pieces the current chunk was built from. An initial buffer grew from the starting ""
   * (so every piece came in as " " + piece); otherwise its first piece reset the chunk.
   */
  datatype Buffer = Buffer(initial: bool, group: seq<string>)

  /** current_chunk, as the string the pieces of the buffer spell. */
  function Text(b: Buffer): string
  {
    if b.initial || b.group == [] then Glue(b.group) else Joined(b.group)
  }

  /** What add_knowledge_item receives when the buffer is flushed. */
  function ChunkOf(b: Buffer): string
  {
    Strip(Text(b))
  }

  ghost predicate Valid(b: Buffer)
  {
    !b.initial ==> b.group != []
  }

  /** The buffers flushed so far, and the current one. */
  datatype Walk = Walk(done: seq<Buffer>, cur: Buffer)

  /** The buffers flushed when the current chunk is replaced: a blank chunk is dropped. */
  function Flushed(wk: Walk): seq<Buffer>
  {
    if IsBlank(Text(wk.cur)) then wk.done else wk.done + [wk.cur]
  }

  function Apply(wk: Walk, step: Step, w: int): Walk
  {
    match step
    case Pack(p) =>
      if |Text(wk.cur)| + |p| <= w then Walk(wk.done, Buffer(wk.cur.initial, wk.cur.group + [p]))
      else Walk(Flushed(wk), Buffer(false, [p]))
    case Restart(p) => Walk(Flushed(wk), Buffer(false, [p]))
  }

  function Run(steps: seq<Step>, w: int): (wk: Walk)
    ensures Valid(wk.cur)
  {
    if steps == [] then Walk([], Buffer(true, []))
    else Apply(Run(steps[..|steps| - 1], w), steps[|steps| - 1], w)
  }

  function ChunkList(bs: seq<Buffer>): (r: seq<string>)
    ensures |r| == |bs|
  {
    if bs == [] then [] else ChunkList(bs[..|bs| - 1]) + [ChunkOf(bs[|bs| - 1])]
  }

  /** The texts study_doc adds, in order: every flushed chunk, then the final one. */
  function Chunks(doc: string, tokenize: string -> seq<string>, w: int): (r: seq<string>)
    ensures |r| >= 1
  {
    var wk := Run(DocSteps(SplitLines(doc), tokenize, w), w);
    ChunkList(wk.done) + [ChunkOf(wk.cur)]
  }

  /** The piece groups behind Chunks, one per chunk. */
  function Groups(doc: string, tokenize: string -> seq<string>, w: int): seq<seq<string>>
  {
    var wk := Run(DocSteps(SplitLines(doc), tokenize, w), w);
    GroupList(wk.done) + [wk.cur.group]
  }

  function GroupList(bs: seq<Buffer>): (r: seq<seq<string>>)
    ensures |r| == |bs| && forall i :: 0 <= i < |bs| ==> r[i] == bs[i].group
  {
    if bs == [] then [] else GroupList(bs[..|bs| - 1]) + [bs[|bs| - 1].group]
  }

  function Pieces(steps: seq<Step>): (r: seq<string>)
    ensures |r| == |steps| && forall i :: 0 <= i < |steps| ==> r[i] == steps[i].piece
  {
    if steps == [] then [] else Pieces(steps[..|steps| - 1]) + [steps[|steps| - 1].piece]
  }

  function Flatten(gs: seq<seq<string>>): seq<string>
  {
    if gs == [] then [] else Flatten(gs[..|gs| - 1]) + gs[|gs| - 1]
  }

  // ---------------------------------------------------------------------------------
  // The buffer text

  /** Packing a piece onto a valid buffer appends " " + piece to its text. */
  lemma TextPack(b: Buffer, p: string)
    requires Valid(b)
    ensures Text(Buffer(b.initial, b.group + [p])) == Text(b) + " " + p
  {
    var g := b.group + [p];
    assert g[..|g| - 1] == b.group;
    if !b.initial {
      assert g[1..] == b.group[1..] + [p];
      assert g[1..][..|g[1..]| - 1] == b.group[1..];
    }
  }

  /** The glue of a non-empty group is a space followed by its pieces joined by spaces. */
  lemma {:induction false} GlueJoined(g: seq<string>)
    requires g != []
    ensures Glue(g) == " " + Joined(g)
  {
    if |g| == 1 {
      assert g[..0] == [];
      assert g[1..] == [];
    } else {
      var init := g[..|g| - 1];
      GlueJoined(init);
      assert init[1..] == g[1..][..|g[1..]| - 1];
      assert init[0] == g[0];
    }
  }

  /** A group of clean pieces, joined by spaces, ends with the last character of its last piece. */
  lemma {:induction false} GlueLast(g: seq<string>)
    requires g != [] && Clean(g[|g| - 1])
    ensures |Glue(g)| > 0 && Glue(g)[|Glue(g)| - 1] == g[|g| - 1][|g[|g| - 1]| - 1]
  {
  }

  lemma JoinedClean(g: seq<string>)
    requires g != [] && forall i :: 0 <= i < |g| ==> Clean(g[i])
    ensures Clean(Joined(g))
  {
    if |g| > 1 {
      GlueLast(g[1..]);
      assert g[1..][|g[1..]| - 1] == g[|g| - 1];
    }
  }

  /** A valid buffer of clean pieces flushes exactly its pieces joined by single spaces. */
  lemma ChunkJoined(b: Buffer)
    requires Valid(b) && b.group != [] && forall i :: 0 <= i < |b.group| ==> Clean(b.group[i])
    ensures ChunkOf(b) == Joined(b.group)
  {
    var j := Joined(b.group);
    JoinedClean(b.group);
    StripSpaceClean(j);
    if b.initial {
      GlueJoined(b.group);
    }
  }

  /** A buffer holding at least one clean piece is never blank. */
  lemma TextNotBlank(b: Buffer)
    requires Valid(b) && b.group != [] && forall i :: 0 <= i < |b.group| ==> Clean(b.group[i])
    ensures !IsBlank(Text(b))
  {
    ChunkJoined(b);
    JoinedClean(b.group);
    StripSpec(Text(b));
  }

  // ---------------------------------------------------------------------------------
  // What the walk guarantees

  /** Every buffer flushed so far held a non-blank chunk. */
  ghost predicate FlushedNonBlank(wk: Walk)
  {
    forall i :: 0 <= i < |wk.done| ==> !IsBlank(Text(wk.done[i]))
  }

  lemma {:induction false} RunFlushesNonBlank(steps: seq<Step>, w: int)
    ensures FlushedNonBlank(Run(steps, w))
  {
    if steps != [] {
      var prev := Run(steps[..|steps| - 1], w);
      RunFlushesNonBlank(steps[..|steps| - 1], w);
      var wk := Run(steps, w);
      if !IsBlank(Text(prev.cur)) && wk.done != prev.done {
        assert wk.done == prev.done + [prev.cur];
        forall i | 0 <= i < |wk.done|
          ensures !IsBlank(Text(wk.done[i]))
        {
          if i < |prev.done| {
            assert wk.done[i] == prev.done[i];
          }
        }
      }
    }
  }

  /** A buffer that packed two or more pieces never outgrew the window by more than the joining space. */
  ghost predicate Bounded(b: Buffer, w: int)
  {
    |b.group| >= 2 ==> |Text(b)| <= w + 1
  }

  lemma {:induction false} RunBounded(steps: seq<Step>, w: int)
    ensures var wk := Run(steps, w);
      Bounded(wk.cur, w) && forall i :: 0 <= i < |wk.done| ==> Bounded(wk.done[i], w)
  {
    if steps != [] {
      var prev := Run(steps[..|steps| - 1], w);
      RunBounded(steps[..|steps| - 1], w);
      var s := steps[|steps| - 1];
      if s.Pack? && |Text(prev.cur)| + |s.piece| <= w {
        TextPack(prev.cur, s.piece);
      }
    }
  }

  /** The groups flushed so far, followed by the current one, are the pieces fed so far. */
  ghost predicate PiecesKept(wk: Walk, steps: seq<Step>)
  {
    Flatten(GroupList(wk.done)) + wk.cur.group == Pieces(steps)
  }

  /** Every flushed buffer is valid and non-empty, and every piece is clean. */
  ghost predicate CleanGroups(wk: Walk)
  {
    && (forall i :: 0 <= i < |wk.done| ==> Valid(wk.done[i]) && wk.done[i].group != [])
    && (forall i :: 0 <= i < |wk.cur.group| ==> Clean(wk.cur.group[i]))
    && forall i, j :: 0 <= i < |wk.done| && 0 <= j < |wk.done[i].group| ==> Clean(wk.done[i].group[j])
  }

  /** One step keeps the groups clean. */
  lemma ApplyCleanGroups(wk: Walk, s: Step, w: int)
    requires CleanGroups(wk) && Valid(wk.cur) && Clean(s.piece)
    ensures CleanGroups(Apply(wk, s, w))
  {
    var r := Apply(wk, s, w);
    if !(s.Pack? && |Text(wk.cur)| + |s.piece| <= w) && !IsBlank(Text(wk.cur)) {
      TextNotBlankGroup(wk.cur);
      assert r.done == wk.done + [wk.cur];
      forall i, j | 0 <= i < |r.done| && 0 <= j < |r.done[i].group|
        ensures Clean(r.done[i].group[j])
      {
        if i < |wk.done| {
          assert r.done[i] == wk.done[i];
        }
      }
    }
  }

  /** One step feeds its piece to the walk without losing or reordering earlier pieces. */
  lemma ApplyKeepsPieces(wk: Walk, steps: seq<Step>, s: Step, w: int)
    requires PiecesKept(wk, steps) && CleanGroups(wk) && Valid(wk.cur)
    ensures PiecesKept(Apply(wk, s, w), steps + [s])
  {
    var r := Apply(wk, s, w);
    var flat := Flatten(GroupList(wk.done));
    assert Pieces(steps + [s]) == Pieces(steps) + [s.piece] by {
      assert (steps + [s])[..|steps|] == steps;
    }
    if s.Pack? && |Text(wk.cur)| + |s.piece| <= w {
      assert r.done == wk.done && r.cur.group == wk.cur.group + [s.piece];
      assert flat + r.cur.group == (flat + wk.cur.group) + [s.piece];
    } else if IsBlank(Text(wk.cur)) {
      if wk.cur.group != [] {
        TextNotBlank(wk.cur);
      }
      assert r.done == wk.done && r.cur.group == [s.piece];
    } else {
      assert r.done == wk.done + [wk.cur] && r.cur.group == [s.piece];
      assert GroupList(r.done)[..|r.done| - 1] == GroupList(wk.done);
      assert Flatten(GroupList(r.done)) == flat + wk.cur.group;
    }
  }

  /** With clean pieces no text is lost or reordered by the walk, and the groups stay clean. */
  lemma {:induction false} RunKeepsPieces(steps: seq<Step>, w: int)
    requires CleanPieces(steps)
    ensures PiecesKept(Run(steps, w), steps) && CleanGroups(Run(steps, w))
  {
    if steps != [] {
      var init := steps[..|steps| - 1];
      var s := steps[|steps| - 1];
      assert CleanPieces(init) by {
        forall i | 0 <= i < |init| ensures Clean(init[i].piece) {
          assert init[i] == steps[i];
        }
      }
      RunKeepsPieces(init, w);
      var prev := Run(init, w);
      assert Run(steps, w) == Apply(prev, s, w);
      assert Clean(s.piece);
      ApplyCleanGroups(prev, s, w);
      ApplyKeepsPieces(prev, init, s, w);
      assert init + [s] == steps;
    }
  }

  /** A blank buffer text means an empty group (for a valid buffer, by the definition of Text). */
  lemma TextNotBlankGroup(b: Buffer)
    requires Valid(b) && !IsBlank(Text(b))
    ensures b.group != []
  {
  }

  // ---------------------------------------------------------------------------------
  // The chunk theorems

  lemma {:induction false} ChunkListNonEmpty(bs: seq<Buffer>)
    requires forall i :: 0 <= i < |bs| ==> !IsBlank(Text(bs[i]))
    ensures forall i :: 0 <= i < |bs| ==> ChunkList(bs)[i] != "" && Clean(ChunkList(bs)[i])
  {
    if bs != [] {
      ChunkListNonEmpty(bs[..|bs| - 1]);
      StripSpec(Text(bs[|bs| - 1]));
    }
  }

  /** Every chunk but the last is non-empty and stripped; only the final one may be "". */
  lemma ChunksNonEmptyButLast(doc: string, tokenize: string -> seq<string>, w: int)
    ensures var r := Chunks(doc, tokenize, w); forall i :: 0 <= i < |r| - 1 ==> r[i] != "" && Clean(r[i])
  {
    var wk := Run(DocSteps(SplitLines(doc), tokenize, w), w);
    RunFlushesNonBlank(DocSteps(SplitLines(doc), tokenize, w), w);
    assert FlushedNonBlank(wk);
    ChunkListNonEmpty(wk.done);
  }

  /** The i-th text flushed is the stripped text of the i-th buffer. */
  lemma {:induction false} ChunkListAt(bs: seq<Buffer>, i: nat)
    requires i < |bs|
    ensures ChunkList(bs)[i] == ChunkOf(bs[i])
  {
    var n := |bs| - 1;
    if i < n {
      ChunkListAt(bs[..n], i);
      assert bs[..n][i] == bs[i];
    }
  }

  lemma ChunkListBounded(bs: seq<Buffer>, w: int)
    requires forall i :: 0 <= i < |bs| ==> Bounded(bs[i], w)
    ensures forall i :: 0 <= i < |bs| ==> |bs[i].group| >= 2 ==> |ChunkList(bs)[i]| <= w + 1
  {
    forall i | 0 <= i < |bs| && |bs[i].group| >= 2
      ensures |ChunkList(bs)[i]| <= w + 1
    {
      ChunkListAt(bs, i);
      StripSpec(Text(bs[i]));
    }
  }

  /** The window: a chunk built from two or more pieces is at most window_size + 1 characters. */
  lemma ChunksBounded(doc: string, tokenize: string -> seq<string>, w: int)
    ensures var r := Chunks(doc, tokenize, w); var g := Groups(doc, tokenize, w);
      |g| == |r| && forall i :: 0 <= i < |r| ==> |g[i]| >= 2 ==> |r[i]| <= w + 1
  {
    var wk := Run(DocSteps(SplitLines(doc), tokenize, w), w);
    RunBounded(DocSteps(SplitLines(doc), tokenize, w), w);
    ChunkListBounded(wk.done, w);
    StripSpec(Text(wk.cur));
    var r := Chunks(doc, tokenize, w);
    var g := Groups(doc, tokenize, w);
    assert r == ChunkList(wk.done) + [ChunkOf(wk.cur)];
    assert g == GroupList(wk.done) + [wk.cur.group];
    forall i | 0 <= i < |r| && |g[i]| >= 2
      ensures |r[i]| <= w + 1
    {
      if i < |wk.done| {
        assert r[i] == ChunkList(wk.done)[i];
        assert g[i] == wk.done[i].group;
      }
    }
  }

  ghost predicate CleanPieces(steps: seq<Step>)
  {
    forall i :: 0 <= i < |steps| ==> Clean(steps[i].piece)
  }

  /** The sentence tokenizer yields non-empty sentences with no blank at either end. */
  ghost predicate CleanTokenizer(tokenize: string -> seq<string>)
  {
    forall p: string, i :: 0 <= i < |tokenize(p)| ==> Clean(tokenize(p)[i])
  }

  lemma CleanPiecesAppend(a: seq<Step>, b: seq<Step>)
    requires CleanPieces(a) && CleanPieces(b)
    ensures CleanPieces(a + b)
  {
    forall i | 0 <= i < |a + b|
      ensures Clean((a + b)[i].piece)
    {
      if i >= |a| {
        assert (a + b)[i] == b[i - |a|];
      }
    }
  }

  /** Every piece of a document comes from a stripped, non-blank line, or from the tokenizer. */
  lemma {:induction false} DocStepsClean(lines: seq<string>, tokenize: string -> seq<string>, w: int)
    requires CleanTokenizer(tokenize)
    ensures CleanPieces(DocSteps(lines, tokenize, w))
  {
    if lines != [] {
      var init := lines[..|lines| - 1];
      DocStepsClean(init, tokenize, w);
      var p := Strip(lines[|lines| - 1]);
      if p != [] {
        StripSpec(lines[|lines| - 1]);
        assert Clean(p);
        var sentences := tokenize(p);
        assert forall i :: 0 <= i < |sentences| ==> Clean(sentences[i]);
        ParagraphStepsClean(p, sentences, w);
        assert DocSteps(lines, tokenize, w) == DocSteps(init, tokenize, w) + ParagraphSteps(p, sentences, w);
        CleanPiecesAppend(DocSteps(init, tokenize, w), ParagraphSteps(p, sentences, w));
      } else {
        assert DocSteps(lines, tokenize, w) == DocSteps(init, tokenize, w);
      }
    }
  }

  lemma ParagraphStepsClean(p: string, sentences: seq<string>, w: int)
    requires Clean(p) && forall i :: 0 <= i < |sentences| ==> Clean(sentences[i])
    ensures CleanPieces(ParagraphSteps(p, sentences, w))
  {
  }

  lemma {:induction false} ChunkListJoined(bs: seq<Buffer>)
    requires forall i :: 0 <= i < |bs| ==> Valid(bs[i]) && bs[i].group != []
    requires forall i, j :: 0 <= i < |bs| && 0 <= j < |bs[i].group| ==> Clean(bs[i].group[j])
    ensures forall i :: 0 <= i < |bs| ==> ChunkList(bs)[i] == Joined(bs[i].group)
  {
    if bs != [] {
      ChunkListJoined(bs[..|bs| - 1]);
      ChunkJoined(bs[|bs| - 1]);
    }
  }

  /**
   * No text is lost: when the tokenizer yields clean sentences, the chunk groups flatten back to
   * the document's pieces, in order.
   */
  lemma ChunksKeepText(doc: string, tokenize: string -> seq<string>, w: int)
    requires CleanTokenizer(tokenize)
    ensures Flatten(Groups(doc, tokenize, w)) == Pieces(DocSteps(SplitLines(doc), tokenize, w))
  {
    var steps := DocSteps(SplitLines(doc), tokenize, w);
    var wk := Run(steps, w);
    DocStepsClean(SplitLines(doc), tokenize, w);
    RunKeepsPieces(steps, w);
    var g := Groups(doc, tokenize, w);
    assert g == GroupList(wk.done) + [wk.cur.group];
    assert g[..|g| - 1] == GroupList(wk.done);
    assert Flatten(g) == Flatten(GroupList(wk.done)) + wk.cur.group;
  }

  /** With clean sentences, each chunk is the pieces of its group joined by single spaces. */
  lemma ChunksJoined(doc: string, tokenize: string -> seq<string>, w: int)
    requires CleanTokenizer(tokenize)
    ensures var r := Chunks(doc, tokenize, w); var g := Groups(doc, tokenize, w);
      |g| == |r| && forall i :: 0 <= i < |r| ==> g[i] != [] ==> r[i] == Joined(g[i])
  {
    var steps := DocSteps(SplitLines(doc), tokenize, w);
    var wk := Run(steps, w);
    DocStepsClean(SplitLines(doc), tokenize, w);
    RunKeepsPieces(steps, w);
    ChunkListJoined(wk.done);
    var r := Chunks(doc, tokenize, w);
    var g := Groups(doc, tokenize, w);
    assert r == ChunkList(wk.done) + [ChunkOf(wk.cur)];
    assert g == GroupList(wk.done) + [wk.cur.group];
    forall i | 0 <= i < |r| && g[i] != []
      ensures r[i] == Joined(g[i])
    {
      if i < |wk.done| {
        assert r[i] == ChunkList(wk.done)[i];
        assert g[i] == wk.done[i].group;
      } else {
        ChunkJoined(wk.cur);
      }
    }
  }

  lemma {:induction false} SplitLinesBlank(s: string)
    requires IsBlank(s)
    ensures forall i :: 0 <= i < |SplitLines(s)| ==> IsBlank(SplitLines(s)[i])
  {
    if s != [] {
      SplitLinesBlank(s[1..]);
    }
  }

  lemma {:induction false} DocStepsBlank(lines: seq<string>, tokenize: string -> seq<string>, w: int)
    requires forall i :: 0 <= i < |lines| ==> IsBlank(lines[i])
    ensures DocSteps(lines, tokenize, w) == []
  {
    if lines != [] {
      DocStepsBlank(lines[..|lines| - 1], tokenize, w);
      StripSpec(lines[|lines| - 1]);
    }
  }

  /** The final add is unconditional: a blank document still adds one item, the empty text. */
  lemma BlankDocument(doc: string, tokenize: string -> seq<string>, w: int)
    requires IsBlank(doc)
    ensures Chunks(doc, tokenize, w) == [""]
  {
    SplitLinesBlank(doc);
    DocStepsBlank(SplitLines(doc), tokenize, w);
  }

  // ---------------------------------------------------------------------------------

  /** add_knowledge_item(c) for each chunk c, in order, with the default score 0.0. */
  function AddChunks(md5: string -> string, embed: string -> seq<real>, st: Stores, chunks: seq<string>): (r: Stores)
    requires StoresValid(st)
    ensures StoresValid(r)
  {
    if chunks == [] then st
    else Added(md5, embed, AddChunks(md5, embed, st, chunks[..|chunks| - 1]), chunks[|chunks| - 1], 0.0)
  }

  /** Adding one more chunk extends the fold by one add. */
  lemma AddChunksSnoc(md5: string -> string, embed: string -> seq<real>, st: Stores, chunks: seq<string>, c: string)
    requires StoresValid(st)
    ensures AddChunks(md5, embed, st, chunks + [c]) == Added(md5, embed, AddChunks(md5, embed, st, chunks), c, 0.0)
  {
    assert (chunks + [c])[..|chunks|] == chunks;
  }

  ghost predicate HasKey(st: Stores, key: string)
  {
    key in st.records.entries && key in st.vectors.entries
  }

  /** After adding chunks, every chunk's key is in both stores. */
  lemma {:induction false} AddChunksStored(md5: string -> string, embed: string -> seq<real>, st: Stores, chunks: seq<string>)
    requires StoresValid(st)
    ensures forall i :: 0 <= i < |chunks| ==> HasKey(AddChunks(md5, embed, st, chunks), md5(chunks[i]))
  {
    if chunks != [] {
      var init := chunks[..|chunks| - 1];
      var c := chunks[|chunks| - 1];
      var p := AddChunks(md5, embed, st, init);
      var r := AddChunks(md5, embed, st, chunks);
      AddChunksStored(md5, embed, st, init);
      assert r == Added(md5, embed, p, c, 0.0);
      forall i | 0 <= i < |chunks|
        ensures HasKey(r, md5(chunks[i]))
      {
        AddedKeys(md5, embed, p, c, 0.0, md5(chunks[i]));
        if i < |init| {
          assert chunks[i] == init[i];
          assert HasKey(p, md5(init[i]));
        }
      }
    }
  }

  /** The last chunk added reads back as itself, with score 0.0. */
  lemma AddChunksLast(md5: string -> string, embed: string -> seq<real>, st: Stores, chunks: seq<string>)
    requires StoresValid(st) && chunks != []
    ensures var c := chunks[|chunks| - 1];
      RecordItem(md5, AddChunks(md5, embed, st, chunks).records, md5(c)) == Some(KnowledgeItem(c, 0.0, md5(c)))
  {
    var c := chunks[|chunks| - 1];
    AddedSpec(md5, embed, AddChunks(md5, embed, st, chunks[..|chunks| - 1]), c, 0.0, c);
  }

  /** Keys that no chunk hashes to are untouched. */
  lemma {:induction false} AddChunksUntouched(md5: string -> string, embed: string -> seq<real>, st: Stores, chunks: seq<string>, x: string)
    requires StoresValid(st) && forall i :: 0 <= i < |chunks| ==> md5(chunks[i]) != x
    ensures Lookup(AddChunks(md5, embed, st, chunks).records, x) == Lookup(st.records, x)
    ensures Lookup(AddChunks(md5, embed, st, chunks).vectors, x) == Lookup(st.vectors, x)
  {
    if chunks != [] {
      var init := chunks[..|chunks| - 1];
      AddChunksUntouched(md5, embed, st, init, x);
      AddedSpec(md5, embed, AddChunks(md5, embed, st, init), chunks[|chunks| - 1], 0.0, x);
    }
  }

  /** Adding chunks keeps paired, readable stores paired and readable. */
  lemma {:induction false} AddChunksPaired(md5: string -> string, embed: string -> seq<real>, st: Stores, chunks: seq<string>)
    requires StoresValid(st) && Paired(st) && Decodable(md5, st)
    ensures Paired(AddChunks(md5, embed, st, chunks)) && Decodable(md5, AddChunks(md5, embed, st, chunks))
  {
    if chunks != [] {
      var init := chunks[..|chunks| - 1];
      AddChunksPaired(md5, embed, st, init);
      AddedPaired(md5, embed, AddChunks(md5, embed, st, init), chunks[|chunks| - 1], 0.0);
    }
  }

  class DocStudy {
    const knowledgeRetrieval: KnowledgeRetrieval
    const sentTokenize: string -> seq<string>

    ghost predicate Valid()
      reads knowledgeRetrieval.knowledgeDb, knowledgeRetrieval.vectorDb
    {
      knowledgeRetrieval.Valid()
    }

    constructor (embed: string -> seq<real>, md5: string -> string, similarity: (seq<real>, seq<real>) -> real,
                 registry: Registry, knowledgeDbPath: string, vectorDbPath: string,
                 persistedRecords: Table<JsonValue>, persistedVectors: Table<JsonValue>,
                 sentTokenize: string -> seq<string>)
      requires registry.Valid() && knowledgeDbPath != vectorDbPath
      requires WellFormed(persistedRecords) && WellFormed(persistedVectors)
      modifies registry
      ensures Valid() && registry.Valid() && this.sentTokenize == sentTokenize
      ensures knowledgeRetrieval.embed == embed && knowledgeRetrieval.md5 == md5
      ensures knowledgeDbPath in registry.instances && knowledgeRetrieval.knowledgeDb == registry.instances[knowledgeDbPath]
      ensures vectorDbPath in registry.instances && knowledgeRetrieval.vectorDb == registry.instances[vectorDbPath]
    {
      this.sentTokenize := sentTokenize;
      this.knowledgeRetrieval := new KnowledgeRetrieval(embed, md5, similarity, registry, knowledgeDbPath, vectorDbPath,
                                                        persistedRecords, persistedVectors);
    }

    /**
     * The loop state of study_doc after the given steps: current_chunk is the text of the
     * walk's current buffer, and the stores hold st0 plus every chunk flushed so far.
     */
    ghost predicate Tracks(current: string, steps: seq<Step>, w: int, st0: Stores)
      reads knowledgeRetrieval.knowledgeDb, knowledgeRetrieval.vectorDb
    {
      && Valid() && StoresValid(st0)
      && current == Text(Run(steps, w).cur)
      && knowledgeRetrieval.State()
         == AddChunks(knowledgeRetrieval.md5, knowledgeRetrieval.embed, st0, ChunkList(Run(steps, w).done))
    }

    /** Replaces the current chunk by a piece, adding the old chunk first unless it is blank. */
    method RestartWith(current: string, piece: string, w: int, ghost steps: seq<Step>, ghost st0: Stores)
      returns (next: string)
      requires Tracks(current, steps, w, st0)
      modifies knowledgeRetrieval.knowledgeDb, knowledgeRetrieval.vectorDb
      ensures next == piece
      ensures Tracks(next, steps + [Restart(piece)], w, st0)
    {
      ghost var wk := Run(steps, w);
      assert (steps + [Restart(piece)])[..|steps|] == steps;
      assert Run(steps + [Restart(piece)], w) == Walk(Flushed(wk), Buffer(false, [piece]));
      Flush(current, wk, st0);
      next := piece;
    }

    /** Adds the chunk unless it is blank: the guarded add the source repeats. */
    method Flush(current: string, ghost wk: Walk, ghost st0: Stores)
      requires Valid() && StoresValid(st0) && current == Text(wk.cur)
      requires knowledgeRetrieval.State() == AddChunks(knowledgeRetrieval.md5, knowledgeRetrieval.embed, st0, ChunkList(wk.done))
      modifies knowledgeRetrieval.knowledgeDb, knowledgeRetrieval.vectorDb
      ensures Valid()
      ensures knowledgeRetrieval.State() == AddChunks(knowledgeRetrieval.md5, knowledgeRetrieval.embed, st0, ChunkList(Flushed(wk)))
    {
      var kr := knowledgeRetrieval;
      StripSpec(current);
      if Strip(current) != [] {
        ghost var cs := ChunkList(wk.done + [wk.cur]);
        assert (wk.done + [wk.cur])[..|wk.done|] == wk.done;
        assert cs == ChunkList(wk.done) + [Strip(current)];
        AddChunksSnoc(kr.md5, kr.embed, st0, ChunkList(wk.done), Strip(current));
        kr.AddKnowledgeItem(Strip(current), 0.0);
      }
    }

    /** Packs one piece (a short paragraph or a sentence of a long one) into the current chunk. */
    method PackPiece(current: string, piece: string, w: int, ghost steps: seq<Step>, ghost st0: Stores)
      returns (next: string)
      requires Tracks(current, steps, w, st0)
      modifies knowledgeRetrieval.knowledgeDb, knowledgeRetrieval.vectorDb
      ensures Tracks(next, steps + [Pack(piece)], w, st0)
    {
      ghost var wk := Run(steps, w);
      assert (steps + [Pack(piece)])[..|steps|] == steps;
      assert Run(steps + [Pack(piece)], w) == Apply(wk, Pack(piece), w);
      if |current| + |piece| <= w {
        TextPack(wk.cur, piece);
        next := current + " " + piece;
      } else {
        Flush(current, wk, st0);
        next := piece;
      }
    }

    /** One stripped, non-blank paragraph of study_doc. */
    method StudyParagraph(current: string, paragraph: string, w: int, ghost steps: seq<Step>, ghost st0: Stores)
      returns (next: string)
      requires Tracks(current, steps, w, st0)
      modifies knowledgeRetrieval.knowledgeDb, knowledgeRetrieval.vectorDb
      ensures Tracks(next, steps + ParagraphSteps(paragraph, sentTokenize(paragraph), w), w, st0)
    {
      var sentences := sentTokenize(paragraph);
      if |sentences| < 2 {
        next := PackPiece(current, paragraph, w, steps, st0);
      } else if |paragraph| >= w {
        next := PackSentences(current, sentences, w, steps, st0);
      } else {
        next := RestartWith(current, paragraph, w, steps, st0);
      }
    }

    /** The sentence loop of a long paragraph: every sentence is packed in turn. */
    method PackSentences(current: string, sentences: seq<string>, w: int, ghost steps: seq<Step>, ghost st0: Stores)
      returns (next: string)
      requires Tracks(current, steps, w, st0)
      modifies knowledgeRetrieval.knowledgeDb, knowledgeRetrieval.vectorDb
      ensures Tracks(next, steps + PackAll(sentences), w, st0)
    {
      next := current;
      ghost var done := steps;
      var j := 0;
      while j < |sentences|
        invariant 0 <= j <= |sentences|
        invariant done == steps + PackAll(sentences[..j])
        invariant Tracks(next, done, w, st0)
      {
        PackAllPrefix(sentences, j);
        next := PackPiece(next, sentences[j], w, done, st0);
        done := done + [Pack(sentences[j])];
        j := j + 1;
      }
      assert sentences[..j] == sentences;
    }

    /** One pass of the paragraph loop: blank lines are skipped. */
    method StudyLine(current: string, line: string, w: int, ghost steps: seq<Step>, ghost st0: Stores)
      returns (next: string)
      requires Tracks(current, steps, w, st0)
      modifies knowledgeRetrieval.knowledgeDb, knowledgeRetrieval.vectorDb
      ensures Tracks(next, steps + LineSteps(line, sentTokenize, w), w, st0)
    {
      var cleanParagraph := Strip(line);
      if cleanParagraph != [] {
        next := StudyParagraph(current, cleanParagraph, w, steps, st0);
      } else {
        assert steps + LineSteps(line, sentTokenize, w) == steps;
        next := current;
      }
    }

    /** The paragraph loop of study_doc, from an empty current chunk. */
    method StudyLines(paragraphs: seq<string>, w: int, ghost st0: Stores) returns (current: string, ghost steps: seq<Step>)
      requires Tracks("", [], w, st0)
      modifies knowledgeRetrieval.knowledgeDb, knowledgeRetrieval.vectorDb
      ensures steps == DocSteps(paragraphs, sentTokenize, w)
      ensures Tracks(current, steps, w, st0)
    {
      current := "";
      steps := [];
      var i := 0;
      while i < |paragraphs|
        invariant 0 <= i <= |paragraphs|
        invariant steps == DocSteps(paragraphs[..i], sentTokenize, w)
        invariant Tracks(current, steps, w, st0)
      {
        DocStepsPrefix(paragraphs, i, sentTokenize, w);
        current := StudyLine(current, paragraphs[i], w, steps, st0);
        steps := steps + LineSteps(paragraphs[i], sentTokenize, w);
        i := i + 1;
      }
      assert paragraphs[..i] == paragraphs;
    }

    /** study_doc(doc_content, window_size) */
    method StudyDoc(docContent: string, windowSize: int)
      requires Valid()
      modifies knowledgeRetrieval.knowledgeDb, knowledgeRetrieval.vectorDb
      ensures Valid()
      ensures knowledgeRetrieval.State() == AddChunks(knowledgeRetrieval.md5, knowledgeRetrieval.embed,
                                                      old(knowledgeRetrieval.State()), Chunks(docContent, sentTokenize, windowSize))
    {
      var kr := knowledgeRetrieval;
      ghost var st0 := kr.State();
      var current, steps := StudyLines(SplitLines(docContent), windowSize, st0);
      ghost var done := Run(steps, windowSize).done;
      assert Chunks(docContent, sentTokenize, windowSize) == ChunkList(done) + [Strip(current)];
      AddChunksSnoc(kr.md5, kr.embed, st0, ChunkList(done), Strip(current));
      kr.AddKnowledgeItem(Strip(current), 0.0);
    }

    /** clear_local_knowledge: empties both stores. */
    method ClearLocalKnowledge()
      requires Valid()
      modifies knowledgeRetrieval.knowledgeDb, knowledgeRetrieval.vectorDb
      ensures Valid()
      ensures knowledgeRetrieval.State() == Stores(Empty(), Empty())
    {
      knowledgeRetrieval.ClearKnowledgeDb();
      knowledgeRetrieval.ClearVectorDb();
    }
  }
}
