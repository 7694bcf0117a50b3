/** The two text chunkers of app/services/chunking.py and the factory that
    picks one by name.  Each `chunk_text` is a method whose loop is proved
    to build exactly the chunk list of a specification function; the
    properties of the chunkers are lemmas about those functions. */
module Chunking {
  import opened Values
  import opened Text

  /** The keys a chunker computes for one chunk, before the caller's
      metadata is spread over them: a fixed-size window, a chunk flushed in
      the middle of a paragraph, or the trailing chunk of a semantic split. */
  datatype Computed =
    | WindowKeys(index: nat, size: nat, start: nat)
    | FlushKeys(index: nat, size: nat, paragraph: nat)
    | TrailingKeys(index: nat, size: nat)

  /** The dictionary literal each chunker writes for its computed keys. */
  function KeysDict(keys: Computed): Dict
  {
    match keys
    case WindowKeys(index, size, start) =>
      map["chunk_index" := VInt(index), "chunk_size" := VInt(size),
          "start_word" := VInt(start), "end_word" := VInt(start + size - 1)]
    case FlushKeys(index, size, paragraph) =>
      map["chunk_index" := VInt(index), "chunk_size" := VInt(size),
          "paragraph_start" := VInt(paragraph), "semantic_boundary" := VBool(true)]
    case TrailingKeys(index, size) =>
      map["chunk_index" := VInt(index), "chunk_size" := VInt(size), "semantic_boundary" := VBool(true)]
  }

  /** One segment of a document: its text and its metadata, held as the
      computed keys and the caller's dictionary spread over them. */
  datatype Chunk = Chunk(text: string, keys: Computed, caller: Dict)
  {
    /** The chunk's `metadata` dictionary, `{**computed, **(metadata or {})}`:
        a caller's entry overrides a computed key of the same name. */
    function Metadata(): (m: Dict)
      ensures forall key :: key in caller ==> key in m && m[key] == caller[key]
      ensures "chunk_index" !in caller ==> Get(m, "chunk_index") == VInt(keys.index)
      ensures "chunk_size" !in caller ==> Get(m, "chunk_size") == VInt(keys.size)
      ensures keys.WindowKeys? && "start_word" !in caller ==> Get(m, "start_word") == VInt(keys.start)
      ensures keys.WindowKeys? && "end_word" !in caller ==> Get(m, "end_word") == VInt(keys.start + keys.size - 1)
      ensures keys.FlushKeys? && "paragraph_start" !in caller ==> Get(m, "paragraph_start") == VInt(keys.paragraph)
      ensures !keys.WindowKeys? && "semantic_boundary" !in caller ==> Get(m, "semantic_boundary") == VBool(true)
    {
      KeysDict(keys) + caller
    }
  }

  /** A configured chunker.  `FixedSizeChunking` counts words,
      `SemanticChunking` counts characters; neither changes its
      parameters after construction. */
  datatype Strategy =
    | FixedSize(chunkSize: int, overlap: int)
    | Semantic(maxChunkSize: int, minChunkSize: int)

  /** `get_chunking_strategy`: the named strategy with its default
      parameters, and the default fixed-size chunker for any other name. */
  function GetChunkingStrategy(name: string): (s: Strategy)
    ensures s.Semantic? <==> name == "semantic"
    ensures s.Semantic? ==> s == Semantic(1000, 100)
    ensures s.FixedSize? ==> s == FixedSize(512, 50)
  {
    var strategies := map["fixed_size" := FixedSize(512, 50), "semantic" := Semantic(1000, 100)];
    if name in strategies then strategies[name] else FixedSize(512, 50)
  }

  /** The caller's metadata reaches every chunk unchanged: it is spread
      last, so it overrides any computed key of the same name. */
  predicate CallerWins(chunks: seq<Chunk>, caller: Dict)
  {
    forall k, key :: 0 <= k < |chunks| && key in caller ==>
      key in chunks[k].Metadata() && chunks[k].Metadata()[key] == caller[key]
  }

  // ---------------------------------------------------------------------
  // Fixed-size sliding word window

  /** The chunk of the window `words[start:start + chunkSize]`. */
  function Window(words: seq<string>, chunkSize: int, start: nat, index: nat, caller: Dict): Chunk
    requires start <= |words|
  {
    var end := WindowEnd(|words|, start, chunkSize);
    Chunk(Join(" ", words[start..end]), WindowKeys(index, end - start, start), caller)
  }

  /** Where the window `[start:start + chunkSize]` of a list of `n` words ends:
      `chunkSize` words on, or earlier where the list runs out; a bound that
      Python normalises to before `start` leaves the window empty. */
  function WindowEnd(n: nat, start: nat, chunkSize: int): (end: nat)
    requires start <= n
    ensures start <= end <= n
    ensures chunkSize >= 1 ==> end == if start + chunkSize <= n then start + chunkSize else n
  {
    var hi := SliceBound(start + chunkSize, n);
    if hi < start then start else hi
  }

  /** What `range(start, n, step)` yields for a positive step. */
  function Starts(n: nat, step: nat, start: nat): seq<nat>
    requires step > 0
    decreases n - start
  {
    if start >= n then [] else [start] + Starts(n, step, start + step)
  }

  /** The windows taken at `range(start, |words|, step)`, numbered from `index`. */
  function FixedWindowsFrom(words: seq<string>, chunkSize: int, step: nat, start: nat, index: nat, caller: Dict): seq<Chunk>
    requires step > 0
    decreases |words| - start
  {
    if start >= |words| then []
    else [Window(words, chunkSize, start, index, caller)] + FixedWindowsFrom(words, chunkSize, step, start + step, index + 1, caller)
  }

  /** The windows taken at `range(0, |words|, step)`, the `k`-th start giving chunk `k`. */
  function FixedWindows(words: seq<string>, chunkSize: int, step: nat, caller: Dict): (r: seq<Chunk>)
    requires step > 0
    ensures |r| == |Starts(|words|, step, 0)|
  {
    FixedWindowsLength(words, chunkSize, step, 0, 0, caller);
    FixedWindowsFrom(words, chunkSize, step, 0, 0, caller)
  }

  /** What `FixedSizeChunking(chunkSize, overlap).chunk_text(text, caller)`
      returns: `range` raises on a zero step and is empty for a negative one. */
  function FixedSizeChunks(chunkSize: int, overlap: int, text: string, caller: Dict): Result<seq<Chunk>>
  {
    var step := chunkSize - overlap;
    if step == 0 then Err(ValueError("range() arg 3 must not be zero"))
    else if step < 0 then Ok([])
    else Ok(FixedWindows(Words(text), chunkSize, step, caller))
  }

  /** The body of the loop of `FixedSizeChunking.chunk_text`: the words
      `words[start:start + chunkSize]` joined by single blanks, with their
      metadata. */
  method WindowChunk(words: seq<string>, chunkSize: int, start: nat, index: nat, caller: Dict) returns (chunk: Chunk)
    requires start <= |words|
    ensures chunk == Window(words, chunkSize, start, index, caller)
  {
    var chunkWords := PySlice(words, start, start + chunkSize);
    WindowSlice(words, chunkSize, start);
    var chunkText := Join(" ", chunkWords);
    chunk := Chunk(chunkText, WindowKeys(index, |chunkWords|, start), caller);
  }

  /** Appending the window at `i` moves the remaining windows on by one step. */
  lemma FixedWindowsFromStep(words: seq<string>, chunkSize: int, step: nat, i: nat, caller: Dict, chunks: seq<Chunk>, chunk: Chunk)
    requires step > 0 && i < |words| && chunk == Window(words, chunkSize, i, |chunks|, caller)
    ensures chunks + FixedWindowsFrom(words, chunkSize, step, i, |chunks|, caller)
         == (chunks + [chunk]) + FixedWindowsFrom(words, chunkSize, step, i + step, |chunks| + 1, caller)
  {
    assert FixedWindowsFrom(words, chunkSize, step, i, |chunks|, caller)
        == [chunk] + FixedWindowsFrom(words, chunkSize, step, i + step, |chunks| + 1, caller);
  }

  /** The loop of `FixedSizeChunking.chunk_text` for a positive step: one
      window at every `i` in `range(0, len(words), step)`. */
  method SlideWindows(words: seq<string>, chunkSize: int, step: nat, caller: Dict) returns (chunks: seq<Chunk>)
    requires step > 0
    ensures chunks == FixedWindows(words, chunkSize, step, caller)
  {
    chunks := [];
    var i: nat := 0;
    while i < |words|
      invariant chunks + FixedWindowsFrom(words, chunkSize, step, i, |chunks|, caller) == FixedWindows(words, chunkSize, step, caller)
      decreases |words| - i
    {
      var chunk := WindowChunk(words, chunkSize, i, |chunks|, caller);
      FixedWindowsFromStep(words, chunkSize, step, i, caller, chunks, chunk);
      chunks := chunks + [chunk];
      i := i + step;
    }
    assert FixedWindowsFrom(words, chunkSize, step, i, |chunks|, caller) == [];
  }

  /** `FixedSizeChunking.chunk_text`: `range` raises on a zero step and is
      empty for a negative one. */
  method FixedSizeChunkText(chunkSize: int, overlap: int, text: string, caller: Dict) returns (r: Result<seq<Chunk>>)
    ensures r == FixedSizeChunks(chunkSize, overlap, text, caller)
  {
    var words := Words(text);
    var step := chunkSize - overlap;
    if step == 0 {
      return Err(ValueError("range() arg 3 must not be zero"));
    }
    var chunks: seq<Chunk> := [];
    if step > 0 {
      chunks := SlideWindows(words, chunkSize, step, caller);
    }
    return Ok(chunks);
  }

  lemma MulSucc(k: nat, step: nat)
    ensures (k + 1) * step == k * step + step
  {
  }

  /** The `k`-th start of `range(start, n, step)` is `start + k * step`, below `n`. */
  lemma {:induction false} StartsAt(n: nat, step: nat, start: nat, k: nat)
    requires step > 0
    requires k < |Starts(n, step, start)|
    ensures Starts(n, step, start)[k] == start + k * step < n
    decreases k
  {
    if k > 0 {
      StartsAt(n, step, start + step, k - 1);
      MulSucc(k - 1, step);
    }
  }

  /** Consecutive starts are one step apart. */
  lemma {:induction false} StartsNext(n: nat, step: nat, start: nat, k: nat)
    requires step > 0
    requires k + 1 < |Starts(n, step, start)|
    ensures Starts(n, step, start)[k + 1] == Starts(n, step, start)[k] + step
    decreases k
  {
    if k > 0 {
      StartsNext(n, step, start + step, k - 1);
    }
  }

  /** The range stops only once it has passed `n`. */
  lemma {:induction false} StartsLength(n: nat, step: nat, start: nat)
    requires step > 0
    ensures start + |Starts(n, step, start)| * step >= n
    decreases n - start
  {
    if start < n {
      StartsLength(n, step, start + step);
      MulSucc(|Starts(n, step, start + step)|, step);
    }
  }

  /** Every start lies in `[start, n)`. */
  lemma {:induction false} StartsBelow(n: nat, step: nat, start: nat, k: nat)
    requires step > 0
    requires k < |Starts(n, step, start)|
    ensures start <= Starts(n, step, start)[k] < n
    decreases k
  {
    if k > 0 {
      StartsBelow(n, step, start + step, k - 1);
    }
  }

  /** Every index in `[start, n)` lies less than one step after some start. */
  lemma {:induction false} StartsCover(n: nat, step: nat, start: nat, i: nat)
    requires step > 0
    requires start <= i < n
    ensures exists k :: 0 <= k < |Starts(n, step, start)| && Starts(n, step, start)[k] <= i < Starts(n, step, start)[k] + step
    decreases n - start
  {
    var starts := Starts(n, step, start);
    if i < start + step {
      assert starts[0] <= i < starts[0] + step;
    } else {
      StartsCover(n, step, start + step, i);
      var k :| 0 <= k < |Starts(n, step, start + step)| && Starts(n, step, start + step)[k] <= i < Starts(n, step, start + step)[k] + step;
      assert starts[k + 1] == Starts(n, step, start + step)[k];
    }
  }

  /** `words[start:start + chunkSize]` is the window up to `WindowEnd`. */
  lemma WindowSlice(words: seq<string>, chunkSize: int, start: nat)
    requires start <= |words|
    ensures PySlice(words, start, start + chunkSize) == words[start..WindowEnd(|words|, start, chunkSize)]
  {
  }

  /** The windows from `start` on are as many as the starts of the range. */
  lemma {:induction false} FixedWindowsLength(words: seq<string>, chunkSize: int, step: nat, start: nat, index: nat, caller: Dict)
    requires step > 0
    ensures |FixedWindowsFrom(words, chunkSize, step, start, index, caller)| == |Starts(|words|, step, start)|
    decreases |words| - start
  {
    if start < |words| {
      FixedWindowsLength(words, chunkSize, step, start + step, index + 1, caller);
    }
  }

  /** The `k`-th window from `start` on is taken at the `k`-th start `s` of
      the range and numbered `j = index + k`. */
  lemma {:induction false} FixedWindowsFromAt(words: seq<string>, chunkSize: int, step: nat, start: nat, index: nat, caller: Dict,
                                              k: nat, s: nat, j: nat)
    requires step > 0
    requires k < |Starts(|words|, step, start)| && s == Starts(|words|, step, start)[k] && j == index + k
    ensures s < |words| && k < |FixedWindowsFrom(words, chunkSize, step, start, index, caller)|
    ensures FixedWindowsFrom(words, chunkSize, step, start, index, caller)[k] == Window(words, chunkSize, s, j, caller)
    decreases k
  {
    if k > 0 {
      FixedWindowsFromAt(words, chunkSize, step, start + step, index + 1, caller, k - 1, s, j);
    }
  }

  /** Window `k` is the text of the words from the `k`-th start up to the
      window's end, with the metadata of exactly those words. */
  lemma FixedWindowAt(words: seq<string>, chunkSize: int, step: nat, caller: Dict, k: nat)
    requires step > 0
    requires k < |FixedWindows(words, chunkSize, step, caller)|
    ensures Starts(|words|, step, 0)[k] < |words|
    ensures var start := Starts(|words|, step, 0)[k];
      var end := WindowEnd(|words|, start, chunkSize);
      FixedWindows(words, chunkSize, step, caller)[k]
           == Chunk(Join(" ", words[start..end]), WindowKeys(k, end - start, start), caller)
  {
    StartsBelow(|words|, step, 0, k);
    FixedWindowsFromAt(words, chunkSize, step, 0, 0, caller, k, Starts(|words|, step, 0)[k], k);
  }

  lemma SliceOfWords(words: seq<string>, start: nat, end: nat)
    requires start <= end <= |words|
    requires forall i :: 0 <= i < |words| ==> IsWord(words[i])
    ensures forall i :: 0 <= i < end - start ==> IsWord(words[start..end][i])
  {
    forall i | 0 <= i < end - start ensures IsWord(words[start..end][i]) { assert words[start..end][i] == words[start + i]; }
  }

  /** For a word list, window `k` splits back into the words it was made of. */
  lemma FixedWindowWords(words: seq<string>, chunkSize: int, step: nat, caller: Dict, k: nat)
    requires step > 0
    requires forall i :: 0 <= i < |words| ==> IsWord(words[i])
    requires k < |FixedWindows(words, chunkSize, step, caller)|
    ensures Starts(|words|, step, 0)[k] < |words|
    ensures var start := Starts(|words|, step, 0)[k];
      Words(FixedWindows(words, chunkSize, step, caller)[k].text) == words[start..WindowEnd(|words|, start, chunkSize)]
  {
    FixedWindowAt(words, chunkSize, step, caller, k);
    var start := Starts(|words|, step, 0)[k];
    var end := WindowEnd(|words|, start, chunkSize);
    SliceOfWords(words, start, end);
    WordsOfJoinText(FixedWindows(words, chunkSize, step, caller)[k].text, words[start..end]);
  }

  /** Window `k` is taken at word `k * step`. */
  lemma FixedWindowStartAt(words: seq<string>, chunkSize: int, step: nat, caller: Dict, k: nat)
    requires step > 0 && k < |FixedWindows(words, chunkSize, step, caller)|
    ensures k * step < |words| && FixedWindows(words, chunkSize, step, caller)[k] == Window(words, chunkSize, k * step, k, caller)
  {
    StartsAt(|words|, step, 0, k);
    FixedWindowsFromAt(words, chunkSize, step, 0, 0, caller, k, k * step, k);
  }

  /** The fixed-size windows start at word 0, S-O, 2(S-O), ... and at every such
      index below the word count, chunk `k` being the window at `k(S-O)`. */
  lemma FixedSizeWindowStarts(chunkSize: int, overlap: int, text: string, caller: Dict)
    requires chunkSize - overlap > 0
    ensures var r := FixedSizeChunks(chunkSize, overlap, text, caller);
      var step, words := chunkSize - overlap, Words(text);
      && r.Ok?
      && (forall k :: 0 <= k < |r.value| ==>
            k * step < |words| && r.value[k] == Window(words, chunkSize, k * step, k, caller))
      && |r.value| * step >= |words|
  {
    var step, words := chunkSize - overlap, Words(text);
    var r := FixedWindows(words, chunkSize, step, caller);
    forall k | 0 <= k < |r|
      ensures k * step < |words| && r[k] == Window(words, chunkSize, k * step, k, caller)
    {
      FixedWindowStartAt(words, chunkSize, step, caller, k);
    }
    StartsLength(|words|, step, 0);
  }

  /** Chunk `k` of the fixed-size chunker is the text of words `start` up to
      `start + S` (fewer only where the text runs out), `start` being the
      `k`-th window start; every start lies inside the text, so no chunk is
      empty. */
  lemma FixedSizeChunkContents(chunkSize: int, overlap: int, text: string, caller: Dict, k: nat)
    requires 1 <= chunkSize && overlap < chunkSize
    requires k < |FixedSizeChunks(chunkSize, overlap, text, caller).value|
    ensures var c := FixedSizeChunks(chunkSize, overlap, text, caller).value[k];
      var start, words := Starts(|Words(text)|, chunkSize - overlap, 0)[k], Words(text);
      var end := if start + chunkSize <= |words| then start + chunkSize else |words|;
      start < end && Words(c.text) == words[start..end]
  {
    WordsAreWords(text);
    StartsBelow(|Words(text)|, chunkSize - overlap, 0, k);
    FixedWindowWords(Words(text), chunkSize, chunkSize - overlap, caller, k);
  }

  /** The metadata of chunk `k` records its position, its word count and
      the offsets of its first and last word, unless the caller overrides
      them; with `FixedSizeChunkContents` the count is that of the chunk's
      own words. */
  lemma FixedSizeChunkMetadata(chunkSize: int, overlap: int, text: string, caller: Dict, k: nat)
    requires 1 <= chunkSize && overlap < chunkSize
    requires k < |FixedSizeChunks(chunkSize, overlap, text, caller).value|
    ensures var c := FixedSizeChunks(chunkSize, overlap, text, caller).value[k];
      var start, words := Starts(|Words(text)|, chunkSize - overlap, 0)[k], Words(text);
      var end := if start + chunkSize <= |words| then start + chunkSize else |words|;
      && ("chunk_index" !in caller ==> Get(c.Metadata(), "chunk_index") == VInt(k))
      && ("chunk_size" !in caller ==> Get(c.Metadata(), "chunk_size") == VInt(end - start))
      && ("start_word" !in caller ==> Get(c.Metadata(), "start_word") == VInt(start))
      && ("end_word" !in caller ==> Get(c.Metadata(), "end_word") == VInt(end - 1))
  {
    FixedWindowAt(Words(text), chunkSize, chunkSize - overlap, caller, k);
  }

  /** With 0 <= O < S, chunk `k + 1` starts S - O words after chunk `k`; so
      when chunk `k` is full, the last O of its words (`FixedSizeChunkContents`)
      are the first O words of chunk `k + 1`. */
  lemma FixedSizeOverlap(chunkSize: int, overlap: int, text: string, caller: Dict, k: nat)
    requires 0 <= overlap < chunkSize
    requires k + 1 < |FixedSizeChunks(chunkSize, overlap, text, caller).value|
    ensures var words, starts := Words(text), Starts(|Words(text)|, chunkSize - overlap, 0);
      var s0, s1 := starts[k], starts[k + 1];
      var e1 := if s1 + chunkSize <= |words| then s1 + chunkSize else |words|;
      && s1 == s0 + (chunkSize - overlap)
      && (s0 + chunkSize <= |words| ==>
            s1 + overlap <= e1 && words[s0..s0 + chunkSize][chunkSize - overlap..] == words[s1..e1][..overlap])
  {
    var words, step := Words(text), chunkSize - overlap;
    var starts := Starts(|words|, step, 0);
    StartsNext(|words|, step, 0, k);
    StartsBelow(|words|, step, 0, k + 1);
    var s0, s1 := starts[k], starts[k + 1];
    if s0 + chunkSize <= |words| {
      assert words[s0..s0 + chunkSize][step..] == words[s1..s0 + chunkSize];
    }
  }

  /** With a non-negative overlap no word is skipped: every word of the text
      lies in the window of some chunk. */
  lemma FixedSizeCoversEveryWord(chunkSize: int, overlap: int, text: string, caller: Dict, i: nat)
    requires 0 <= overlap < chunkSize
    requires i < |Words(text)|
    ensures var r, starts := FixedSizeChunks(chunkSize, overlap, text, caller).value, Starts(|Words(text)|, chunkSize - overlap, 0);
      exists k :: 0 <= k < |r| && starts[k] <= i < starts[k] + chunkSize
  {
    StartsCover(|Words(text)|, chunkSize - overlap, 0, i);
  }

  // ---------------------------------------------------------------------
  // Semantic sentence accumulation

  /** The loop state of `SemanticChunking.chunk_text`: the chunks emitted so far and the buffer. */
  datatype Accumulator = Accumulator(chunks: seq<Chunk>, current: string)

  /** One pass of the inner loop for the raw sentence `raw` of paragraph `paragraph`. */
  function AddSentence(maxSize: int, minSize: int, caller: Dict, acc: Accumulator, paragraph: nat, raw: string): Accumulator
  {
    var sentence := Strip(raw);
    if sentence == "" then acc
    else if |acc.current| + |sentence| > maxSize then
      if |acc.current| >= minSize then
        var flushed := Chunk(Strip(acc.current), FlushKeys(|acc.chunks|, |Words(acc.current)|, paragraph), caller);
        Accumulator(acc.chunks + [flushed], sentence)
      else
        Accumulator(acc.chunks, acc.current + " " + sentence)
    else
      Accumulator(acc.chunks, if acc.current != "" then acc.current + " " + sentence else sentence)
  }

  /** The inner loop over the sentences of one paragraph. */
  function AddSentences(maxSize: int, minSize: int, caller: Dict, acc: Accumulator, paragraph: nat, sentences: seq<string>): Accumulator
    decreases |sentences|
  {
    if |sentences| == 0 then acc
    else
      var last := |sentences| - 1;
      AddSentence(maxSize, minSize, caller, AddSentences(maxSize, minSize, caller, acc, paragraph, sentences[..last]), paragraph, sentences[last])
  }

  /** The outer loop over the paragraphs. */
  function AddParagraphs(maxSize: int, minSize: int, caller: Dict, acc: Accumulator, paragraphs: seq<string>): Accumulator
    decreases |paragraphs|
  {
    if |paragraphs| == 0 then acc
    else
      var last := |paragraphs| - 1;
      AddSentences(maxSize, minSize, caller, AddParagraphs(maxSize, minSize, caller, acc, paragraphs[..last]),
                   last, SplitSentences(paragraphs[last]))
  }

  /** After the loops: the buffer becomes a last chunk only if it reaches the minimum size. */
  function Finish(minSize: int, caller: Dict, acc: Accumulator): seq<Chunk>
  {
    if acc.current != "" && |acc.current| >= minSize then
      acc.chunks + [Chunk(Strip(acc.current), TrailingKeys(|acc.chunks|, |Words(acc.current)|), caller)]
    else acc.chunks
  }

  /** What `SemanticChunking(maxSize, minSize).chunk_text(text, caller)` returns. */
  function SemanticChunks(maxSize: int, minSize: int, text: string, caller: Dict): seq<Chunk>
  {
    Finish(minSize, caller, AddParagraphs(maxSize, minSize, caller, Accumulator([], ""), SplitOn(text, "\n\n")))
  }

  lemma AddSentencesSnoc(maxSize: int, minSize: int, caller: Dict, acc: Accumulator, paragraph: nat, sentences: seq<string>, j: nat)
    requires j < |sentences|
    ensures AddSentences(maxSize, minSize, caller, acc, paragraph, sentences[..j + 1])
      == AddSentence(maxSize, minSize, caller, AddSentences(maxSize, minSize, caller, acc, paragraph, sentences[..j]), paragraph, sentences[j])
  {
    assert sentences[..j + 1][..j] == sentences[..j];
  }

  lemma AddParagraphsSnoc(maxSize: int, minSize: int, caller: Dict, acc: Accumulator, paragraphs: seq<string>, p: nat)
    requires p < |paragraphs|
    ensures AddParagraphs(maxSize, minSize, caller, acc, paragraphs[..p + 1])
      == AddSentences(maxSize, minSize, caller, AddParagraphs(maxSize, minSize, caller, acc, paragraphs[..p]), p, SplitSentences(paragraphs[p]))
  {
    assert paragraphs[..p + 1][..p] == paragraphs[..p];
  }

  /** The body of the inner loop of `SemanticChunking.chunk_text`: strips the
      raw sentence, skips it when empty, and otherwise flushes the buffer or
      appends the sentence to it. */
  method FeedSentence(maxSize: int, minSize: int, caller: Dict, chunks0: seq<Chunk>, current0: string,
                      paragraph: nat, raw: string)
    returns (chunks: seq<Chunk>, current: string)
    ensures Accumulator(chunks, current)
      == AddSentence(maxSize, minSize, caller, Accumulator(chunks0, current0), paragraph, raw)
  {
    chunks, current := chunks0, current0;
    var sentence := Strip(raw);
    if sentence == "" {
      return;
    }
    if |current| + |sentence| > maxSize {
      if |current| >= minSize {
        chunks := chunks + [Chunk(Strip(current), FlushKeys(|chunks|, |Words(current)|, paragraph), caller)];
        current := sentence;
      } else {
        current := current + " " + sentence;
      }
    } else {
      current := if current != "" then current + " " + sentence else sentence;
    }
  }

  /** The inner loop of `SemanticChunking.chunk_text` over the sentences of
      paragraph `paragraph`. */
  method AddSentencesLoop(maxSize: int, minSize: int, caller: Dict, chunks0: seq<Chunk>, current0: string,
                          paragraph: nat, sentences: seq<string>)
    returns (chunks: seq<Chunk>, current: string)
    ensures Accumulator(chunks, current)
      == AddSentences(maxSize, minSize, caller, Accumulator(chunks0, current0), paragraph, sentences)
  {
    chunks, current := chunks0, current0;
    var j := 0;
    while j < |sentences|
      invariant 0 <= j <= |sentences|
      invariant Accumulator(chunks, current)
        == AddSentences(maxSize, minSize, caller, Accumulator(chunks0, current0), paragraph, sentences[..j])
    {
      AddSentencesSnoc(maxSize, minSize, caller, Accumulator(chunks0, current0), paragraph, sentences, j);
      chunks, current := FeedSentence(maxSize, minSize, caller, chunks, current, paragraph, sentences[j]);
      j := j + 1;
    }
    assert sentences[..j] == sentences;
  }

  /** `SemanticChunking.chunk_text`. */
  method SemanticChunkText(maxSize: int, minSize: int, text: string, caller: Dict) returns (chunks: seq<Chunk>)
    ensures chunks == SemanticChunks(maxSize, minSize, text, caller)
  {
    var paragraphs := SplitOn(text, "\n\n");
    chunks := [];
    var current := "";
    var p := 0;
    while p < |paragraphs|
      invariant 0 <= p <= |paragraphs|
      invariant Accumulator(chunks, current) == AddParagraphs(maxSize, minSize, caller, Accumulator([], ""), paragraphs[..p])
    {
      var sentences := SplitSentences(paragraphs[p]);
      AddParagraphsSnoc(maxSize, minSize, caller, Accumulator([], ""), paragraphs, p);
      chunks, current := AddSentencesLoop(maxSize, minSize, caller, chunks, current, p, sentences);
      p := p + 1;
    }
    assert paragraphs[..p] == paragraphs;
    if current != "" && |current| >= minSize {
      chunks := chunks + [Chunk(Strip(current), TrailingKeys(|chunks|, |Words(current)|), caller)];
    }
  }

  /** The shape of the buffer: trimmed, or one blank in front of a trimmed text
      already longer than the maximum (a long first sentence appended to an
      empty buffer below the minimum). */
  predicate BufferShape(current: string, maxSize: int)
  {
    Trimmed(current)
    || (|current| >= 2 && current[0] == ' ' && Trimmed(current[1..]) && |current| - 1 > maxSize)
  }

  /** What holds of every chunk the semantic chunker emits at position `k`. */
  predicate SemanticChunkOk(c: Chunk, k: nat, maxSize: int, minSize: int, caller: Dict)
  {
    && (|c.text| >= minSize || |c.text| > maxSize)
    && Trimmed(c.text)
    && !c.keys.WindowKeys?
    && c.keys.index == k
    && c.keys.size == |Words(c.text)|
    && c.caller == caller
  }

  predicate AccumulatorOk(maxSize: int, minSize: int, caller: Dict, acc: Accumulator)
  {
    BufferShape(acc.current, maxSize)
    && forall k :: 0 <= k < |acc.chunks| ==> SemanticChunkOk(acc.chunks[k], k, maxSize, minSize, caller)
  }

  lemma TrimmedJoin(a: string, b: string)
    requires Trimmed(a) && a != [] && Trimmed(b) && b != []
    ensures Trimmed(a + " " + b)
  {
    var t := a + " " + b;
    assert t[0] == a[0];
    assert t[|t| - 1] == b[|b| - 1];
  }

  /** Emitting the buffer as a chunk: its text is the stripped buffer, and
      stripping loses at most the blank in front. */
  lemma EmitBufferOk(maxSize: int, minSize: int, caller: Dict, current: string, keys: Computed)
    requires BufferShape(current, maxSize) && |current| >= minSize
    requires !keys.WindowKeys? && keys.size == |Words(current)|
    ensures SemanticChunkOk(Chunk(Strip(current), keys, caller), keys.index, maxSize, minSize, caller)
  {
    if Trimmed(current) {
      StripTrimmed(current);
    } else {
      var core := current[1..];
      assert current == [' '] + core;
      StripLeadingBlank(core);
      WordsSkipSpace(' ', core);
    }
  }

  lemma {:induction false} AddSentenceOk(maxSize: int, minSize: int, caller: Dict, acc: Accumulator, paragraph: nat, raw: string)
    requires AccumulatorOk(maxSize, minSize, caller, acc)
    ensures AccumulatorOk(maxSize, minSize, caller, AddSentence(maxSize, minSize, caller, acc, paragraph, raw))
  {
    var sentence := Strip(raw);
    var cur := acc.current;
    if sentence != "" {
      if |cur| + |sentence| > maxSize && |cur| >= minSize {
        EmitBufferOk(maxSize, minSize, caller, cur, FlushKeys(|acc.chunks|, |Words(cur)|, paragraph));
      } else if cur == "" {
        if |cur| + |sentence| > maxSize {
          assert " " + sentence == [' '] + sentence;
          assert (" " + sentence)[1..] == sentence;
        }
      } else if Trimmed(cur) {
        TrimmedJoin(cur, sentence);
      } else {
        var core := cur[1..];
        TrimmedJoin(core, sentence);
        assert (cur + " " + sentence)[1..] == core + " " + sentence;
      }
    }
  }

  lemma {:induction false} AddSentencesOk(maxSize: int, minSize: int, caller: Dict, acc: Accumulator, paragraph: nat, sentences: seq<string>)
    requires AccumulatorOk(maxSize, minSize, caller, acc)
    ensures AccumulatorOk(maxSize, minSize, caller, AddSentences(maxSize, minSize, caller, acc, paragraph, sentences))
    decreases |sentences|
  {
    if |sentences| > 0 {
      var last := |sentences| - 1;
      AddSentencesOk(maxSize, minSize, caller, acc, paragraph, sentences[..last]);
      AddSentenceOk(maxSize, minSize, caller, AddSentences(maxSize, minSize, caller, acc, paragraph, sentences[..last]), paragraph, sentences[last]);
    }
  }

  lemma {:induction false} AddParagraphsOk(maxSize: int, minSize: int, caller: Dict, acc: Accumulator, paragraphs: seq<string>)
    requires AccumulatorOk(maxSize, minSize, caller, acc)
    ensures AccumulatorOk(maxSize, minSize, caller, AddParagraphs(maxSize, minSize, caller, acc, paragraphs))
    decreases |paragraphs|
  {
    if |paragraphs| > 0 {
      var last := |paragraphs| - 1;
      AddParagraphsOk(maxSize, minSize, caller, acc, paragraphs[..last]);
      AddSentencesOk(maxSize, minSize, caller, AddParagraphs(maxSize, minSize, caller, acc, paragraphs[..last]),
                     last, SplitSentences(paragraphs[last]));
    }
  }

  /** Every semantic chunk is stripped and is no shorter than `min_chunk_size`
      unless it is longer than `max_chunk_size`; its `chunk_index` is its
      position, its `chunk_size` the number of words of its text, and the
      caller's metadata overrides the computed keys. */
  lemma SemanticChunksWellFormed(maxSize: int, minSize: int, text: string, caller: Dict)
    ensures var r := SemanticChunks(maxSize, minSize, text, caller);
      forall k :: 0 <= k < |r| ==> SemanticChunkOk(r[k], k, maxSize, minSize, caller)
  {
    var init := Accumulator([], "");
    assert AccumulatorOk(maxSize, minSize, caller, init);
    var acc := AddParagraphs(maxSize, minSize, caller, init, SplitOn(text, "\n\n"));
    AddParagraphsOk(maxSize, minSize, caller, init, SplitOn(text, "\n\n"));
    if acc.current != "" && |acc.current| >= minSize {
      EmitBufferOk(maxSize, minSize, caller, acc.current, TrailingKeys(|acc.chunks|, |Words(acc.current)|));
    }
  }

  /** Under the usual configuration (min_chunk_size at most one more than
      max_chunk_size, as with the defaults 100 and 1000) no semantic chunk is
      shorter than `min_chunk_size`, the trailing one included. */
  lemma SemanticMinimumSize(maxSize: int, minSize: int, text: string, caller: Dict)
    requires minSize <= maxSize + 1
    ensures var r := SemanticChunks(maxSize, minSize, text, caller);
      forall k :: 0 <= k < |r| ==> |r[k].text| >= minSize
  {
    SemanticChunksWellFormed(maxSize, minSize, text, caller);
  }

  /** The "never flush below the minimum" rule: a sentence that would push
      the buffer past `max_chunk_size` while the buffer is still shorter than
      `min_chunk_size` emits nothing and is appended, taking the buffer past
      the maximum; emitted chunks are never revised. */
  lemma SemanticKeepsAppendingBelowMinimum(maxSize: int, minSize: int, caller: Dict, acc: Accumulator, paragraph: nat, raw: string)
    requires Strip(raw) != ""
    requires |acc.current| + |Strip(raw)| > maxSize && |acc.current| < minSize
    ensures var next := AddSentence(maxSize, minSize, caller, acc, paragraph, raw);
      && next.chunks == acc.chunks
      && next.current == acc.current + " " + Strip(raw)
      && |next.current| > maxSize
  {
  }

  /** A flush happens exactly when the next non-empty sentence would push the
      buffer past `max_chunk_size` and the buffer has reached `min_chunk_size`;
      the chunks already emitted are kept as they are.  A sentence that strips
      to nothing changes nothing; otherwise, without a flush, the sentence is
      appended after a blank, or becomes the buffer when the buffer is empty
      and the sentence fits. */
  lemma SemanticFlushRule(maxSize: int, minSize: int, caller: Dict, acc: Accumulator, paragraph: nat, raw: string)
    ensures var next := AddSentence(maxSize, minSize, caller, acc, paragraph, raw);
      var flush := Strip(raw) != "" && |acc.current| + |Strip(raw)| > maxSize && |acc.current| >= minSize;
      && |next.chunks| == |acc.chunks| + (if flush then 1 else 0)
      && next.chunks[..|acc.chunks|] == acc.chunks
      && (flush ==> next.current == Strip(raw) && next.chunks[|acc.chunks|].text == Strip(acc.current))
      && (Strip(raw) == "" ==> next == acc)
      && (!flush && Strip(raw) != "" ==>
            next.current == if acc.current != "" || |acc.current| + |Strip(raw)| > maxSize
                            then acc.current + " " + Strip(raw) else Strip(raw))
  {
  }

  // ---------------------------------------------------------------------
  // Either strategy

  /** `strategy.chunk_text(text, caller)`. */
  function ChunksOf(strategy: Strategy, text: string, caller: Dict): Result<seq<Chunk>>
  {
    match strategy
    case FixedSize(size, overlap) => FixedSizeChunks(size, overlap, text, caller)
    case Semantic(maxSize, minSize) => Ok(SemanticChunks(maxSize, minSize, text, caller))
  }

  /** `ChunkingStrategy.chunk_text`, dispatched on the configured strategy. */
  method ChunkText(strategy: Strategy, text: string, caller: Dict) returns (r: Result<seq<Chunk>>)
    ensures r == ChunksOf(strategy, text, caller)
  {
    match strategy
    case FixedSize(size, overlap) =>
      r := FixedSizeChunkText(size, overlap, text, caller);
    case Semantic(maxSize, minSize) =>
      var chunks := SemanticChunkText(maxSize, minSize, text, caller);
      r := Ok(chunks);
  }

  /** Under both strategies the caller's metadata overrides the computed keys of every chunk. */
  lemma CallerMetadataOverrides(strategy: Strategy, text: string, caller: Dict)
    requires ChunksOf(strategy, text, caller).Ok?
    ensures CallerWins(ChunksOf(strategy, text, caller).value, caller)
  {
    match strategy
    case FixedSize(size, overlap) =>
      var r := FixedSizeChunks(size, overlap, text, caller).value;
      if size - overlap > 0 {
        forall k, key | 0 <= k < |r| && key in caller
          ensures key in r[k].Metadata() && r[k].Metadata()[key] == caller[key]
        {
          FixedWindowAt(Words(text), size, size - overlap, caller, k);
        }
      }
    case Semantic(maxSize, minSize) =>
      SemanticChunksWellFormed(maxSize, minSize, text, caller);
  }

  lemma {:induction false} SplitOnBlank(s: string, sep: string)
    requires |sep| > 0 && AllSpace(s)
    ensures forall i :: 0 <= i < |SplitOn(s, sep)| ==> AllSpace(SplitOn(s, sep)[i])
    decreases |s|
  {
    match IndexOf(s, sep)
    case None =>
    case Some(i) =>
      SplitOnBlank(s[i + |sep|..], sep);
  }

  lemma {:induction false} NoTerminatorInBlank(s: string)
    requires AllSpace(s)
    ensures SpanNonTerminator(s) == |s|
    decreases |s|
  {
    if s != [] {
      NoTerminatorInBlank(s[1..]);
    }
  }

  lemma SplitSentencesBlank(s: string)
    requires AllSpace(s)
    ensures SplitSentences(s) == [s]
  {
    NoTerminatorInBlank(s);
  }

  lemma {:induction false} AddSentencesBlank(maxSize: int, minSize: int, caller: Dict, acc: Accumulator, paragraph: nat, sentences: seq<string>)
    requires forall i :: 0 <= i < |sentences| ==> AllSpace(sentences[i])
    ensures AddSentences(maxSize, minSize, caller, acc, paragraph, sentences) == acc
    decreases |sentences|
  {
    if |sentences| > 0 {
      var last := |sentences| - 1;
      AddSentencesBlank(maxSize, minSize, caller, acc, paragraph, sentences[..last]);
    }
  }

  lemma {:induction false} AddParagraphsBlank(maxSize: int, minSize: int, caller: Dict, acc: Accumulator, paragraphs: seq<string>)
    requires forall i :: 0 <= i < |paragraphs| ==> AllSpace(paragraphs[i])
    ensures AddParagraphs(maxSize, minSize, caller, acc, paragraphs) == acc
    decreases |paragraphs|
  {
    if |paragraphs| > 0 {
      var last := |paragraphs| - 1;
      AddParagraphsBlank(maxSize, minSize, caller, acc, paragraphs[..last]);
      SplitSentencesBlank(paragraphs[last]);
      AddSentencesBlank(maxSize, minSize, caller, acc, last, SplitSentences(paragraphs[last]));
    }
  }

  /** A chunk with its `paragraph_start` forgotten: the only trace a
      paragraph leaves on what the semantic chunker emits. */
  function Unplaced(c: Chunk): Chunk
  {
    match c.keys
    case FlushKeys(index, size, _) => Chunk(c.text, FlushKeys(index, size, 0), c.caller)
    case _ => c
  }

  function UnplacedAll(cs: seq<Chunk>): (r: seq<Chunk>)
    ensures |r| == |cs|
    decreases |cs|
  {
    if |cs| == 0 then []
    else UnplacedAll(cs[..|cs| - 1]) + [Unplaced(cs[|cs| - 1])]
  }

  /** Two loop states that differ at most in the paragraphs their chunks were cut in. */
  predicate SameButPlacement(a: Accumulator, b: Accumulator)
  {
    a.current == b.current && UnplacedAll(a.chunks) == UnplacedAll(b.chunks)
  }

  lemma UnplacedAllSnoc(cs: seq<Chunk>, c: Chunk)
    ensures UnplacedAll(cs + [c]) == UnplacedAll(cs) + [Unplaced(c)]
  {
    assert (cs + [c])[..|cs|] == cs;
  }

  /** One sentence fed to two such states, in any two paragraphs, keeps them so. */
  lemma AddSentenceIgnoresPlacement(maxSize: int, minSize: int, caller: Dict, a: Accumulator, b: Accumulator,
                                    p: nat, q: nat, raw: string)
    requires SameButPlacement(a, b)
    ensures SameButPlacement(AddSentence(maxSize, minSize, caller, a, p, raw),
                             AddSentence(maxSize, minSize, caller, b, q, raw))
  {
    assert |a.chunks| == |UnplacedAll(a.chunks)| == |UnplacedAll(b.chunks)| == |b.chunks|;
    var n := |a.chunks|;
    var size := |Words(a.current)|;
    UnplacedAllSnoc(a.chunks, Chunk(Strip(a.current), FlushKeys(n, size, p), caller));
    UnplacedAllSnoc(b.chunks, Chunk(Strip(b.current), FlushKeys(n, size, q), caller));
  }

  lemma {:induction false} AddSentencesIgnoresPlacement(maxSize: int, minSize: int, caller: Dict, a: Accumulator, b: Accumulator,
                                                        p: nat, q: nat, sentences: seq<string>)
    requires SameButPlacement(a, b)
    ensures SameButPlacement(AddSentences(maxSize, minSize, caller, a, p, sentences),
                             AddSentences(maxSize, minSize, caller, b, q, sentences))
    decreases |sentences|
  {
    if |sentences| > 0 {
      var last := |sentences| - 1;
      AddSentencesIgnoresPlacement(maxSize, minSize, caller, a, b, p, q, sentences[..last]);
      AddSentenceIgnoresPlacement(maxSize, minSize, caller,
        AddSentences(maxSize, minSize, caller, a, p, sentences[..last]),
        AddSentences(maxSize, minSize, caller, b, q, sentences[..last]), p, q, sentences[last]);
    }
  }

  /** Feeding two runs of sentences one after the other is feeding their concatenation. */
  lemma {:induction false} AddSentencesAppend(maxSize: int, minSize: int, caller: Dict, acc: Accumulator, p: nat,
                                              first: seq<string>, second: seq<string>)
    ensures AddSentences(maxSize, minSize, caller, acc, p, first + second)
         == AddSentences(maxSize, minSize, caller, AddSentences(maxSize, minSize, caller, acc, p, first), p, second)
    decreases |second|
  {
    if |second| > 0 {
      var last := |second| - 1;
      assert (first + second)[..|first + second| - 1] == first + second[..last];
      AddSentencesAppend(maxSize, minSize, caller, acc, p, first, second[..last]);
    } else {
      assert first + second == first;
    }
  }

  /** The sentences of all paragraphs, in document order. */
  function AllSentences(paragraphs: seq<string>): seq<string>
    decreases |paragraphs|
  {
    if |paragraphs| == 0 then []
    else AllSentences(paragraphs[..|paragraphs| - 1]) + SplitSentences(paragraphs[|paragraphs| - 1])
  }

  /** Paragraph breaks never force a flush: the paragraph loop emits the same
      chunks (text, index, word count, caller metadata) and leaves the same
      buffer as one pass over every sentence of the text in order; the
      paragraph only supplies `paragraph_start`. */
  lemma {:induction false} ParagraphBreaksNeverFlush(maxSize: int, minSize: int, caller: Dict, acc: Accumulator, paragraphs: seq<string>)
    ensures SameButPlacement(AddParagraphs(maxSize, minSize, caller, acc, paragraphs),
                             AddSentences(maxSize, minSize, caller, acc, 0, AllSentences(paragraphs)))
    decreases |paragraphs|
  {
    if |paragraphs| > 0 {
      var last := |paragraphs| - 1;
      var before := AllSentences(paragraphs[..last]);
      var these := SplitSentences(paragraphs[last]);
      ParagraphBreaksNeverFlush(maxSize, minSize, caller, acc, paragraphs[..last]);
      AddSentencesAppend(maxSize, minSize, caller, acc, 0, before, these);
      AddSentencesIgnoresPlacement(maxSize, minSize, caller,
        AddParagraphs(maxSize, minSize, caller, acc, paragraphs[..last]),
        AddSentences(maxSize, minSize, caller, acc, 0, before), last, 0, these);
    }
  }

  /** Empty or blank-only text yields no chunks under either strategy (the
      fixed-size chunker still raises on a zero step). */
  lemma BlankTextHasNoChunks(strategy: Strategy, text: string, caller: Dict)
    requires AllSpace(text)
    requires strategy.FixedSize? ==> strategy.chunkSize != strategy.overlap
    ensures ChunksOf(strategy, text, caller) == Ok([])
  {
    match strategy
    case FixedSize(size, overlap) =>
      WordsOfAllSpace(text);
      if size - overlap > 0 {
        assert |FixedWindows(Words(text), size, size - overlap, caller)| == 0;
      }
    case Semantic(maxSize, minSize) =>
      SplitOnBlank(text, "\n\n");
      AddParagraphsBlank(maxSize, minSize, caller, Accumulator([], ""), SplitOn(text, "\n\n"));
  }
}
