/** The query orchestration of the chat backend: booking-intent detection,
    the prompt sent to the language model, the extractive answer used when
    no model is configured, and `process_chat_query`, which ties retrieval,
    answer generation and the two memory writes together.

    The language model is an oracle: either absent, or a pair of functions
    giving the reply to a prompt and to a query with documents. The query
    embedder, the vector similarity and the `{similarity:.3f}` formatting of
    a score are uninterpreted functions; the two timestamps a turn records
    are parameters. */
module RagEngine {
  import opened Values
  import opened Text
  import opened VectorStore
  import opened ChatMemory

  // ---------------------------------------------------------------------
  // Booking intent
  // ---------------------------------------------------------------------

  const BookingKeywords: seq<string> :=
    ["schedule", "book", "interview", "appointment", "meeting",
     "available", "time", "date", "calendar", "when can"]

  /** `any(keyword in lowered for keyword in BookingKeywords[k..])`. */
  function AnyKeywordFrom(lowered: string, k: nat): (r: bool)
    requires k <= |BookingKeywords|
    ensures r <==> exists j :: k <= j < |BookingKeywords| && Contains(lowered, BookingKeywords[j])
    decreases |BookingKeywords| - k
  {
    if k == |BookingKeywords| then false
    else Contains(lowered, BookingKeywords[k]) || AnyKeywordFrom(lowered, k + 1)
  }

  /** `_detect_booking_intent`: some keyword is a substring of the lower-cased query. */
  function DetectBookingIntent(query: string): (r: bool)
    ensures r <==> exists j :: 0 <= j < |BookingKeywords| && Contains(Lower(query), BookingKeywords[j])
  {
    AnyKeywordFrom(Lower(query), 0)
  }

  /** The test is a substring test, not a word test: "notebook" asks for a booking. */
  lemma NotebookIsBooking()
    ensures DetectBookingIntent("notebook")
  {
    assert Lower("notebook") == "notebook";
    assert OccursAt("notebook", BookingKeywords[1], 4);
  }

  /** Every keyword has at least four characters, so a shorter query never asks for a booking. */
  lemma ShortQueryIsNotBooking(query: string)
    requires |query| < 4
    ensures !DetectBookingIntent(query)
  {
    forall j | 0 <= j < |BookingKeywords|
      ensures !Contains(Lower(query), BookingKeywords[j])
    {
      assert |BookingKeywords[j]| >= 4;
    }
  }

  /** A keyword written in any mix of letter case still asks for a booking. */
  lemma KeywordInAnyCaseIsBooking(query: string, word: string, j: nat)
    requires j < |BookingKeywords| && Lower(word) == BookingKeywords[j]
    requires Contains(query, word)
    ensures DetectBookingIntent(query)
  {
    LowerContains(query, word);
  }

  /** The test ignores (ASCII) letter case. */
  lemma BookingIgnoresCase(query: string)
    ensures DetectBookingIntent(Lower(query)) == DetectBookingIntent(query)
  {
    LowerIdempotent(query);
  }

  lemma LowerAppend(a: string, b: string)
    ensures Lower(a + b) == Lower(a) + Lower(b)
  {
  }

  lemma ContainsExtended(a: string, b: string, c: string, sub: string)
    requires Contains(b, sub)
    ensures Contains(a + b + c, sub)
  {
    var i :| 0 <= i <= |b| - |sub| && OccursAt(b, sub, i);
    assert (a + b + c)[|a| + i..|a| + i + |sub|] == b[i..i + |sub|];
    assert OccursAt(a + b + c, sub, |a| + i);
  }

  /** Surrounding a booking request with more text keeps it a booking request. */
  lemma BookingSurvivesContext(before: string, query: string, after: string)
    requires DetectBookingIntent(query)
    ensures DetectBookingIntent(before + query + after)
  {
    var j :| 0 <= j < |BookingKeywords| && Contains(Lower(query), BookingKeywords[j]);
    LowerAppend(before + query, after);
    LowerAppend(before, query);
    ContainsExtended(Lower(before), Lower(query), Lower(after), BookingKeywords[j]);
  }

  /** A query containing "schedule an interview" is always a booking request. */
  lemma ScheduleAnInterviewIsBooking(before: string, after: string)
    ensures DetectBookingIntent(before + "schedule an interview" + after)
  {
    var phrase := "schedule an interview";
    assert Lower(phrase) == phrase;
    assert OccursAt(Lower(phrase), BookingKeywords[0], 0);
    BookingSurvivesContext(before, phrase, after);
  }

  // ---------------------------------------------------------------------
  // The prompt
  // ---------------------------------------------------------------------

  const PromptIntro: string :=
    "Based on the following context information, please answer the user's question. "
    + "If the information is not available in the context, say so clearly. "
    + "Provide specific and accurate information from the context.\n\nContext:\n"

  const PromptClosing: string := "\n\nPlease provide a comprehensive answer based on the context above:"

  /** The part of the prompt before the optional history: the instructions and the context. */
  function PromptHead(context: string): string
  {
    PromptIntro + context + "\n\n"
  }

  /** The part of the prompt after the optional history: the question and the closing instruction. */
  function PromptTail(query: string): string
  {
    "User Question: " + query + PromptClosing
  }

  /** Python truthiness of an optional string: present and non-empty. */
  predicate HasHistory(chatHistory: Option<string>)
  {
    chatHistory.Some? && chatHistory.value != ""
  }

  /** `_build_rag_prompt`. The prompt starts with the instructions and the
      context, ends with the question and the closing instruction, and holds
      the "Previous conversation:" block in between exactly when there is a
      non-empty history. */
  function BuildRagPrompt(query: string, context: string, chatHistory: Option<string>): (prompt: string)
    ensures |PromptHead(context)| + |PromptTail(query)| <= |prompt|
    ensures prompt[..|PromptHead(context)|] == PromptHead(context)
    ensures prompt[|prompt| - |PromptTail(query)|..] == PromptTail(query)
    ensures HasHistory(chatHistory) <==> |prompt| > |PromptHead(context)| + |PromptTail(query)|
    ensures HasHistory(chatHistory) ==>
      prompt[|PromptHead(context)|..|prompt| - |PromptTail(query)|]
        == "Previous conversation:\n" + chatHistory.value + "\n\n"
  {
    var head := PromptHead(context);
    var tail := PromptTail(query);
    if HasHistory(chatHistory) then
      var block := "Previous conversation:\n" + chatHistory.value + "\n\n";
      var prompt := head + block + tail;
      assert prompt[..|head|] == head;
      assert prompt[|prompt| - |tail|..] == tail;
      assert prompt[|head|..|prompt| - |tail|] == block;
      prompt
    else
      var prompt := head + tail;
      assert prompt[..|head|] == head;
      assert prompt[|prompt| - |tail|..] == tail;
      prompt
  }

  // ---------------------------------------------------------------------
  // The extractive answer
  // ---------------------------------------------------------------------

  const NoInformation: string := "I don't have enough information to answer your question."

  /** `set(s.lower().split())`. */
  function WordSet(s: string): set<string>
  {
    set w | w in Words(Lower(s))
  }

  /** `len(query_words.intersection(set(text.lower().split())))`. */
  function Overlap(queryWords: set<string>, text: string): nat
  {
    |queryWords * WordSet(text)|
  }

  /** A chunk's score in the scan: its word overlap with the query. */
  function QueryScore(query: string): (score: string -> nat)
    ensures forall text :: score(text) == Overlap(WordSet(query), text)
  {
    var queryWords := WordSet(query);
    text => Overlap(queryWords, text)
  }

  lemma SharedCount(q: set<string>, t: set<string>)
    ensures |q * t| <= |q|
    ensures |q * t| > 0 <==> exists w :: w in q && w in t
  {
    assert q == (q * t) + (q - t);
    assert (q * t) * (q - t) == {};
    if |q * t| > 0 {
      var w :| w in q * t;
    }
  }

  lemma WordSetIgnoresCase(text: string)
    ensures WordSet(Lower(text)) == WordSet(text)
  {
    LowerIdempotent(text);
  }

  /** What the score measures: the distinct lower-cased words a chunk shares
      with the query.  It never exceeds the query's distinct words, ignores
      the chunk's letter case, and is positive exactly when a word is shared. */
  lemma ScoreCountsSharedWords(query: string, text: string)
    ensures QueryScore(query)(text) <= |WordSet(query)|
    ensures QueryScore(query)(Lower(text)) == QueryScore(query)(text)
    ensures QueryScore(query)(text) > 0 <==> exists w :: w in WordSet(query) && w in WordSet(text)
  {
    SharedCount(WordSet(query), WordSet(text));
    WordSetIgnoresCase(text);
  }

  /** The pair the best-chunk scan carries: the chunk kept and its score. */
  datatype Best = Best(chunk: string, matches: nat)

  /** The scan's state after `texts`: it starts at ("", 0) and takes a chunk
      only when its score is strictly greater than the one kept. */
  function BestOf(score: string -> nat, texts: seq<string>): Best
    decreases |texts|
  {
    if |texts| == 0 then Best("", 0)
    else
      var b := BestOf(score, texts[..|texts| - 1]);
      var n := score(texts[|texts| - 1]);
      if n > b.matches then Best(texts[|texts| - 1], n) else b
  }

  /** `k` is the first position holding the greatest score. */
  predicate FirstMax(score: string -> nat, texts: seq<string>, k: int)
  {
    0 <= k < |texts|
    && (forall j :: 0 <= j < |texts| ==> score(texts[j]) <= score(texts[k]))
    && (forall j :: 0 <= j < k ==> score(texts[j]) < score(texts[k]))
  }

  /** The scan keeps the greatest score, and a positive one belongs to the
      first chunk attaining it; when every score is 0 it keeps "". */
  lemma {:induction false} BestOfIsFirstMax(score: string -> nat, texts: seq<string>)
    ensures var b := BestOf(score, texts);
      (forall j :: 0 <= j < |texts| ==> score(texts[j]) <= b.matches)
      && (b.matches == 0 ==> b.chunk == "")
      && (b.matches > 0 ==> exists k :: FirstMax(score, texts, k) && texts[k] == b.chunk
                                         && score(texts[k]) == b.matches)
    decreases |texts|
  {
    if |texts| > 0 {
      var init := texts[..|texts| - 1];
      var last := |texts| - 1;
      BestOfIsFirstMax(score, init);
      var b0 := BestOf(score, init);
      assert forall j :: 0 <= j < last ==> texts[j] == init[j];
      if score(texts[last]) > b0.matches {
        assert FirstMax(score, texts, last);
      } else if b0.matches > 0 {
        var k :| FirstMax(score, init, k) && init[k] == b0.chunk && score(init[k]) == b0.matches;
        assert FirstMax(score, texts, k);
      }
    }
  }

  /** There is exactly one first maximum. */
  lemma FirstMaxUnique(score: string -> nat, texts: seq<string>, k: int, k': int)
    requires FirstMax(score, texts, k) && FirstMax(score, texts, k')
    ensures k == k'
  {
    var a, b := score(texts[k]), score(texts[k']);
    assert a <= b && b <= a;
    if k < k' {
      assert false;
    } else if k' < k {
      assert false;
    }
  }

  /** A non-empty list of contexts always has a first maximum. */
  lemma FirstMaxExists(score: string -> nat, texts: seq<string>)
    requires |texts| > 0
    ensures exists k :: FirstMax(score, texts, k)
  {
    BestOfIsFirstMax(score, texts);
    if BestOf(score, texts).matches == 0 {
      assert FirstMax(score, texts, 0);
    }
  }

  /** The stripped sentences with a positive score, in order. */
  function Relevant(score: string -> nat, sentences: seq<string>): seq<string>
    decreases |sentences|
  {
    if |sentences| == 0 then []
    else
      var r := Relevant(score, sentences[..|sentences| - 1]);
      var s := sentences[|sentences| - 1];
      if score(s) > 0 then r + [Strip(s)] else r
  }

  /** `t` is the stripped form of one of `sentences` with a positive score. */
  predicate StrippedScored(score: string -> nat, sentences: seq<string>, t: string)
  {
    exists j :: 0 <= j < |sentences| && score(sentences[j]) > 0 && t == Strip(sentences[j])
  }

  /** Every relevant sentence is the stripped form of a sentence with a positive score. */
  lemma {:induction false} RelevantAreScored(score: string -> nat, sentences: seq<string>)
    ensures forall t :: t in Relevant(score, sentences) ==> StrippedScored(score, sentences, t)
    decreases |sentences|
  {
    if |sentences| > 0 {
      var init := sentences[..|sentences| - 1];
      var last := |sentences| - 1;
      RelevantAreScored(score, init);
      var r0 := Relevant(score, init);
      forall t | t in Relevant(score, sentences)
        ensures StrippedScored(score, sentences, t)
      {
        if t in r0 {
          assert StrippedScored(score, init, t);
          var j :| 0 <= j < |init| && score(init[j]) > 0 && t == Strip(init[j]);
          assert sentences[j] == init[j];
        } else {
          assert score(sentences[last]) > 0 && t == Strip(sentences[last]);
        }
      }
    }
  }

  /** There is no relevant sentence exactly when no sentence has a positive score. */
  lemma {:induction false} RelevantEmpty(score: string -> nat, sentences: seq<string>)
    ensures Relevant(score, sentences) == [] <==> forall j :: 0 <= j < |sentences| ==> score(sentences[j]) == 0
    decreases |sentences|
  {
    if |sentences| > 0 {
      var init := sentences[..|sentences| - 1];
      RelevantEmpty(score, init);
      assert forall j :: 0 <= j < |init| ==> sentences[j] == init[j];
    }
  }

  /** The answer built when no sentence qualifies. */
  function Fallback(first: string): string
  {
    "Based on the available information: " + Take(first, 200) + "..."
  }

  /** `_generate_simple_response`, as a function of the query and the context texts. */
  function SimpleResponse(query: string, texts: seq<string>): string
  {
    if |texts| == 0 then NoInformation
    else
      var score := QueryScore(query);
      var best := BestOf(score, texts);
      var relevant := Relevant(score, SplitSentences(best.chunk));
      if best.matches > 0 && relevant != [] then Join(" ", Take(relevant, 2))
      else Fallback(texts[0])
  }

  /** The extractive answer in terms of the first chunk with the greatest
      overlap: its first one or two relevant sentences joined by a blank when
      it overlaps the query and has a relevant sentence, the fallback on the
      first context otherwise. */
  lemma SimpleResponseFromFirstBest(query: string, texts: seq<string>, k: int)
    requires FirstMax(QueryScore(query), texts, k)
    ensures var score := QueryScore(query);
      var relevant := Relevant(score, SplitSentences(texts[k]));
      SimpleResponse(query, texts)
        == if score(texts[k]) > 0 && relevant != [] then Join(" ", Take(relevant, 2))
           else Fallback(texts[0])
  {
    var score := QueryScore(query);
    BestOfIsFirstMax(score, texts);
    var b := BestOf(score, texts);
    if b.matches > 0 {
      var k' :| FirstMax(score, texts, k') && texts[k'] == b.chunk && score(texts[k']) == b.matches;
      FirstMaxUnique(score, texts, k, k');
    }
  }

  /** A text sharing a word with the query is not blank, so it does not strip to "". */
  lemma ScoredNotBlank(query: string, text: string)
    requires QueryScore(query)(text) > 0
    ensures Strip(text) != ""
  {
    assert WordSet(query) * WordSet(text) != {};
    BlankHasNoWords(text);
  }

  lemma BlankHasNoWords(text: string)
    ensures AllSpace(text) ==> WordSet(text) == {}
  {
    if AllSpace(text) {
      assert AllSpace(Lower(text));
      WordsOfAllSpace(Lower(text));
    }
  }

  /** The extractive answer is never empty. */
  lemma SimpleResponseNonEmpty(query: string, texts: seq<string>)
    ensures SimpleResponse(query, texts) != ""
  {
    if |texts| > 0 {
      var score := QueryScore(query);
      var best := BestOf(score, texts);
      var sentences := SplitSentences(best.chunk);
      var relevant := Relevant(score, sentences);
      if best.matches > 0 && relevant != [] {
        RelevantAreScored(score, sentences);
        assert relevant[0] in relevant;
        var j :| 0 <= j < |sentences| && score(sentences[j]) > 0 && relevant[0] == Strip(sentences[j]);
        ScoredNotBlank(query, sentences[j]);
        var parts := Take(relevant, 2);
        assert parts[0] == relevant[0];
        assert |Join(" ", parts)| >= |parts[0]|;
      }
    }
  }

  /** With no context the answer is the fixed apology. */
  lemma NoContextNoInformation(query: string)
    ensures SimpleResponse(query, []) == NoInformation
  {
  }

  /** One step of the best-chunk scan. */
  method ScanChunk(score: string -> nat, texts: seq<string>, i: nat, best: Best) returns (next: Best)
    requires i < |texts| && best == BestOf(score, texts[..i])
    ensures next == BestOf(score, texts[..i + 1])
  {
    assert texts[..i + 1][..i] == texts[..i];
    var matches := score(texts[i]);
    next := best;
    if matches > best.matches {
      next := Best(texts[i], matches);
    }
  }

  /** One step of the sentence scan. */
  method ScanSentence(score: string -> nat, sentences: seq<string>, j: nat, relevant: seq<string>)
    returns (next: seq<string>)
    requires j < |sentences| && relevant == Relevant(score, sentences[..j])
    ensures next == Relevant(score, sentences[..j + 1])
  {
    assert sentences[..j + 1][..j] == sentences[..j];
    next := relevant;
    if score(sentences[j]) > 0 {
      next := relevant + [Strip(sentences[j])];
    }
  }

  /** `_generate_simple_response`: the scan for the best chunk, then the
      scan of its sentences. */
  method GenerateSimpleResponse(query: string, texts: seq<string>) returns (response: string)
    ensures response == SimpleResponse(query, texts)
  {
    if |texts| == 0 {
      return NoInformation;
    }
    var score := QueryScore(query);
    var best := Best("", 0);
    var i := 0;
    while i < |texts|
      invariant 0 <= i <= |texts|
      invariant best == BestOf(score, texts[..i])
    {
      best := ScanChunk(score, texts, i, best);
      i := i + 1;
    }
    assert texts[..i] == texts;
    if best.matches > 0 {
      var sentences := SplitSentences(best.chunk);
      var relevant: seq<string> := [];
      var j := 0;
      while j < |sentences|
        invariant 0 <= j <= |sentences|
        invariant relevant == Relevant(score, sentences[..j])
      {
        relevant := ScanSentence(score, sentences, j, relevant);
        j := j + 1;
      }
      assert sentences[..j] == sentences;
      if relevant != [] {
        return Join(" ", Take(relevant, 2));
      }
    }
    return Fallback(texts[0]);
  }

  // ---------------------------------------------------------------------
  // Answer generation
  // ---------------------------------------------------------------------

  /** What the model's plain chat call gives back: a reply, or an exception with its text. */
  datatype ChatReply = Reply(text: string) | Raised(message: string)

  /** A document handed to the model's retrieval-augmented chat call. */
  datatype Document = Document(title: string, snippet: string, text: string, url: string, similarity: real)

  /** What the retrieval-augmented call gives back: a reply with its citations, or an exception. */
  datatype CitedReply = CitedAnswer(text: string, citations: seq<Dict>) | CitedRaised

  /** The language-model client: absent, or a chat call (prompt, whether the
      web-search connector is on) and a chat call over documents. */
  datatype Llm =
    | NoClient
    | Client(chat: (string, bool) -> ChatReply, chatWithDocuments: (string, seq<Document>) -> CitedReply)

  /** A hit's text: its "text" metadata, or "Chunk <id>" when there is none. */
  function ChunkText(hit: Hit): Value
  {
    GetOr(hit.meta, "text", VStr("Chunk " + hit.id))
  }

  /** `f"[Similarity: {similarity:.3f}] {chunk_text}"`, with the score's formatting left abstract. */
  function ContextText(hit: Hit, formatScore: real -> string): string
  {
    "[Similarity: " + formatScore(hit.score) + "] " + Render(ChunkText(hit))
  }

  /** The context texts of the hits, one per hit in retrieval order. */
  function ContextTexts(hits: seq<Hit>, formatScore: real -> string): (texts: seq<string>)
    ensures |texts| == |hits|
    ensures forall i :: 0 <= i < |hits| ==> texts[i] == ContextText(hits[i], formatScore)
    decreases |hits|
  {
    if |hits| == 0 then []
    else ContextTexts(hits[..|hits| - 1], formatScore) + [ContextText(hits[|hits| - 1], formatScore)]
  }

  /** `generate_response`: the model's stripped reply to the prompt (with web
      search exactly when there is no context), the error text when the call
      raises, and the extractive answer over the context texts without a model. */
  function Response(query: string, hits: seq<Hit>, chatHistory: Option<string>, llm: Llm, formatScore: real -> string): string
  {
    var texts := ContextTexts(hits, formatScore);
    match llm
    case NoClient => SimpleResponse(query, texts)
    case Client(chat, _) =>
      match chat(BuildRagPrompt(query, Join("\n\n", texts), chatHistory), |texts| == 0)
      case Reply(text) => Strip(text)
      case Raised(message) => "Error generating response: " + message
  }

  /** Without a model, the answer is the extractive answer over the labelled
      hits, which is the fixed apology when nothing was retrieved and
      otherwise built from the first labelled hit with the greatest overlap. */
  lemma ResponseWithoutModel(query: string, hits: seq<Hit>, chatHistory: Option<string>, formatScore: real -> string, k: int)
    requires FirstMax(QueryScore(query), ContextTexts(hits, formatScore), k)
    ensures var score := QueryScore(query);
      var text := ContextText(hits[k], formatScore);
      var relevant := Relevant(score, SplitSentences(text));
      Response(query, hits, chatHistory, NoClient, formatScore)
        == if score(text) > 0 && relevant != [] then Join(" ", Take(relevant, 2))
           else Fallback(ContextText(hits[0], formatScore))
  {
    SimpleResponseFromFirstBest(query, ContextTexts(hits, formatScore), k);
  }

  /** With a model, the prompt it receives ends with the user's question, and
      the web-search connector is on exactly when nothing was retrieved. */
  lemma ResponseAsksModel(query: string, hits: seq<Hit>, chatHistory: Option<string>, llm: Llm, formatScore: real -> string)
    requires llm.Client?
    ensures var prompt := BuildRagPrompt(query, Join("\n\n", ContextTexts(hits, formatScore)), chatHistory);
      prompt[|prompt| - |PromptTail(query)|..] == PromptTail(query)
      && Response(query, hits, chatHistory, llm, formatScore)
           == match llm.chat(prompt, hits == [])
              case Reply(text) => Strip(text)
              case Raised(message) => "Error generating response: " + message
  {
    assert |ContextTexts(hits, formatScore)| == 0 <==> hits == [];
  }

  /** `generate_response`: the loop labelling each hit, then the model or the extractive answer. */
  method GenerateResponse(query: string, hits: seq<Hit>, chatHistory: Option<string>, llm: Llm, formatScore: real -> string)
    returns (response: string)
    ensures response == Response(query, hits, chatHistory, llm, formatScore)
  {
    var texts: seq<string> := [];
    var i := 0;
    while i < |hits|
      invariant 0 <= i <= |hits|
      invariant texts == ContextTexts(hits[..i], formatScore)
    {
      assert hits[..i + 1][..i] == hits[..i];
      texts := texts + [ContextText(hits[i], formatScore)];
      i := i + 1;
    }
    assert hits[..i] == hits;
    match llm
    case NoClient =>
      response := GenerateSimpleResponse(query, texts);
    case Client(chat, _) =>
      var prompt := BuildRagPrompt(query, Join("\n\n", texts), chatHistory);
      match chat(prompt, |texts| == 0)
      case Reply(text) =>
        response := Strip(text);
      case Raised(message) =>
        response := "Error generating response: " + message;
  }

  /** What `generate_response_with_citations` returns. */
  datatype Cited = Cited(response: string, citations: seq<Dict>, documents: seq<Document>)

  /** The document for one hit; `chunk_text[:500]` raises on a text that is not a string. */
  function DocumentOf(hit: Hit): Option<Document>
  {
    match ChunkText(hit)
    case VStr(text) =>
      Some(Document("Document Chunk " + hit.id, Take(text, 500), text, "chunk://" + hit.id, hit.score))
    case _ => None
  }

  /** The documents of the hits in order, or None when some hit's text is not a string. */
  function Documents(hits: seq<Hit>): (r: Option<seq<Document>>)
    ensures r.Some? <==> forall i :: 0 <= i < |hits| ==> DocumentOf(hits[i]).Some?
    ensures r.Some? ==>
      |r.value| == |hits| && forall i :: 0 <= i < |hits| ==> r.value[i] == DocumentOf(hits[i]).value
    decreases |hits|
  {
    if |hits| == 0 then Some([])
    else
      match Documents(hits[..|hits| - 1])
      case None => None
      case Some(docs) =>
        match DocumentOf(hits[|hits| - 1])
        case None => None
        case Some(doc) => Some(docs + [doc])
  }

  /** The texts handed to the extractive answer when there is no model:
      each hit's "text" metadata, or "" when it has none. The first text that
      is not a string makes `chunk.lower()` raise. */
  function PlainTexts(hits: seq<Hit>): (r: Result<seq<string>>)
    ensures r.Ok? <==> forall i :: 0 <= i < |hits| ==> GetOr(hits[i].meta, "text", VStr("")).VStr?
    ensures r.Ok? ==>
      |r.value| == |hits| && forall i :: 0 <= i < |hits| ==> VStr(r.value[i]) == GetOr(hits[i].meta, "text", VStr(""))
    decreases |hits|
  {
    if |hits| == 0 then Ok([])
    else
      match GetOr(hits[0].meta, "text", VStr(""))
      case VStr(text) =>
        (match PlainTexts(hits[1..])
         case Err(e) => Err(e)
         case Ok(texts) => Ok([text] + texts))
      case v => Err(AttributeError("'" + TypeName(v) + "' object has no attribute 'lower'"))
  }

  /** `generate_response_with_citations`. Without a model: the extractive
      answer over the raw texts and no citations. With one: the reply to the
      query over the hits' documents with its citations and those documents;
      when building the documents or the call raises, the plain answer
      with no citations and no documents. */
  function CitedResponse(query: string, hits: seq<Hit>, chatHistory: Option<string>, llm: Llm, formatScore: real -> string)
    : (r: Result<Cited>)
    ensures llm.Client? ==> r.Ok?
  {
    match llm
    case NoClient =>
      (match PlainTexts(hits)
       case Err(e) => Err(e)
       case Ok(texts) => Ok(Cited(SimpleResponse(query, texts), [], [])))
    case Client(_, chatWithDocuments) =>
      var plain := Cited(Response(query, hits, chatHistory, llm, formatScore), [], []);
      match Documents(hits)
      case None => Ok(plain)
      case Some(documents) =>
        match chatWithDocuments(query, documents)
        case CitedAnswer(text, citations) => Ok(Cited(Strip(text), citations, documents))
        case CitedRaised => Ok(plain)
  }

  /** With a model, citations come only with the documents of every hit:
      either the model answered over one document per hit, in retrieval
      order, or the answer carries neither citations nor documents. */
  lemma CitationsComeWithDocuments(query: string, hits: seq<Hit>, chatHistory: Option<string>, llm: Llm, formatScore: real -> string)
    requires llm.Client?
    ensures var c := CitedResponse(query, hits, chatHistory, llm, formatScore).value;
      (c.citations == [] && c.documents == [] && c.response == Response(query, hits, chatHistory, llm, formatScore))
      || (|c.documents| == |hits|
          && forall i :: 0 <= i < |hits| ==> DocumentOf(hits[i]) == Some(c.documents[i]))
  {
  }

  /** `generate_response_with_citations`: the document loop, then the model call. */
  method GenerateResponseWithCitations(query: string, hits: seq<Hit>, chatHistory: Option<string>, llm: Llm, formatScore: real -> string)
    returns (r: Result<Cited>)
    ensures r == CitedResponse(query, hits, chatHistory, llm, formatScore)
  {
    if llm.NoClient? {
      match PlainTexts(hits)
      case Err(e) =>
        return Err(e);
      case Ok(texts) =>
        var simple := GenerateSimpleResponse(query, texts);
        return Ok(Cited(simple, [], []));
    }
    var documents: seq<Document> := [];
    var i := 0;
    while i < |hits|
      invariant 0 <= i <= |hits|
      invariant Documents(hits[..i]) == Some(documents)
    {
      assert hits[..i + 1][..i] == hits[..i];
      match DocumentOf(hits[i])
      case None =>
        assert Documents(hits[..i + 1]).None?;
        var plain := GenerateResponse(query, hits, chatHistory, llm, formatScore);
        return Ok(Cited(plain, [], []));
      case Some(doc) =>
        documents := documents + [doc];
      i := i + 1;
    }
    assert hits[..i] == hits;
    match llm.chatWithDocuments(query, documents)
    case CitedAnswer(text, citations) =>
      return Ok(Cited(Strip(text), citations, documents));
    case CitedRaised =>
      var plain := GenerateResponse(query, hits, chatHistory, llm, formatScore);
      return Ok(Cited(plain, [], []));
  }

  // ---------------------------------------------------------------------
  // process_chat_query
  // ---------------------------------------------------------------------

  /** The dictionary `process_chat_query` returns. `requiresBookingInfo`
      stands for the "requires_booking_info" key, which only the booking
      answer carries; each retrieved chunk is its (id, similarity, metadata). */
  datatype QueryResult = QueryResult(
    response: string,
    intent: string,
    requiresBookingInfo: bool,
    retrievedChunks: seq<Hit>,
    citations: seq<Dict>,
    documents: seq<Document>)

  const BookingReply: QueryResult :=
    QueryResult(
      "I can help you schedule an interview. Please provide your name, email, preferred date, and time.",
      "booking", true, [], [], [])

  /** The message recording the user's turn. */
  function UserMessage(query: string, timestamp: string): Message
  {
    map["role" := VStr("user"), "content" := VStr(query), "timestamp" := VStr(timestamp)]
  }

  /** The message recording the answer, with the number of chunks it was built from. */
  function AssistantMessage(response: string, timestamp: string, retrieved: nat): Message
  {
    map["role" := VStr("assistant"), "content" := VStr(response), "timestamp" := VStr(timestamp),
        "retrieved_chunks" := VInt(retrieved)]
  }

  /** The answer of the non-booking path: the retrieval-augmented call when
      citations are asked for and there is a model, the plain answer with
      neither citations nor documents otherwise. */
  function Answer(query: string, hits: seq<Hit>, history: string, useCitations: bool, llm: Llm, formatScore: real -> string): (c: Cited)
    ensures !(useCitations && llm.Client?) ==> c.citations == [] && c.documents == []
  {
    if useCitations && llm.Client? then CitedResponse(query, hits, Some(history), llm, formatScore).value
    else Cited(Response(query, hits, Some(history), llm, formatScore), [], [])
  }

  /** The list store after one turn: the user's message pushed, then the assistant's. */
  function SaveTurn(lists: map<string, seq<Message>>, sessionId: string, user: Message, assistant: Message)
    : map<string, seq<Message>>
  {
    var key := Key(sessionId);
    lists[key := [assistant, user] + Stored(lists, key)]
  }

  /** Pushing the user's message and then the assistant's is saving the turn. */
  lemma SaveTurnIsTwoPushes(lists0: map<string, seq<Message>>, lists1: map<string, seq<Message>>,
                            lists2: map<string, seq<Message>>, sessionId: string, user: Message, assistant: Message)
    requires lists1 == lists0[Key(sessionId) := [user] + Stored(lists0, Key(sessionId))]
    requires lists2 == lists1[Key(sessionId) := [assistant] + Stored(lists1, Key(sessionId))]
    ensures lists2 == SaveTurn(lists0, sessionId, user, assistant)
  {
    var key := Key(sessionId);
    assert Stored(lists1, key) == [user] + Stored(lists0, key);
    assert [assistant] + ([user] + Stored(lists0, key)) == [assistant, user] + Stored(lists0, key);
  }

  /** A turn reads back as the user's message followed by the answer, after
      the older history. */
  lemma TurnReadsBack(lists: map<string, seq<Message>>, sessionId: string, user: Message, assistant: Message, limit: int)
    requires limit >= 2
    ensures History(SaveTurn(lists, sessionId, user, assistant), sessionId, limit)
      == (if limit == 2 then [] else History(lists, sessionId, limit - 2)) + [user, assistant]
  {
    var key := Key(sessionId);
    var once := lists[key := [user] + Stored(lists, key)];
    SaveTurnIsTwoPushes(lists, once, once[key := [assistant] + Stored(once, key)], sessionId, user, assistant);
    SavedMessageIsNewest(once, sessionId, assistant, limit);
    SavedMessageIsNewest(lists, sessionId, user, limit - 1);
  }

  /** The engine and its collaborators. */
  class RagEngine {
    const store: InMemoryVectorStore
    const memory: ChatMemoryService
    const llm: Llm
    /** The query embedder. */
    const embed: string -> Vector
    /** The vector similarity the store ranks by. */
    const sim: (Vector, Vector) -> real
    /** `f"{score:.3f}"`. */
    const formatScore: real -> string

    constructor (store: InMemoryVectorStore, memory: ChatMemoryService, llm: Llm,
                 embed: string -> Vector, sim: (Vector, Vector) -> real, formatScore: real -> string)
      ensures this.store == store && this.memory == memory && this.llm == llm
      ensures this.embed == embed && this.sim == sim && this.formatScore == formatScore
    {
      this.store := store;
      this.memory := memory;
      this.llm := llm;
      this.embed := embed;
      this.sim := sim;
      this.formatScore := formatScore;
    }

    /** `retrieve_relevant_chunks`: the store's top `topK` hits for the
        query's embedding, with no filter. */
    method RetrieveRelevantChunks(query: string, topK: int := 5) returns (hits: seq<Hit>)
      requires store.Valid()
      ensures hits == SearchResult(store.order, store.vectors, store.metadata, embed(query), topK, None, sim)
    {
      hits := store.Search(embed(query), topK, None, sim);
    }

    /** The branch of `process_chat_query` that generates the answer. */
    method AnswerQuery(query: string, hits: seq<Hit>, history: string, useCitations: bool) returns (answer: Cited)
      ensures answer == Answer(query, hits, history, useCitations, llm, formatScore)
    {
      if useCitations && llm.Client? {
        var cited := GenerateResponseWithCitations(query, hits, Some(history), llm, formatScore);
        answer := cited.value;
      } else {
        var response := GenerateResponse(query, hits, Some(history), llm, formatScore);
        answer := Cited(response, [], []);
      }
    }

    /** `process_chat_query`. A booking request is answered at once and
        nothing is read or written. Otherwise the conversation context is
        read (its rendering error propagates, before anything is written),
        the chunks are retrieved, the answer generated, and the user's
        message and then the answer are pushed onto the session's list. */
    method ProcessChatQuery(sessionId: string, query: string, userTime: string, assistantTime: string,
                            topK: int := 5, useCitations: bool := true)
      returns (result: Result<QueryResult>)
      requires store.Valid() && memory.redis.Valid()
      modifies memory.redis
      ensures memory.redis.Valid()
      ensures DetectBookingIntent(query) ==>
        result == Ok(BookingReply) && memory.redis.lists == old(memory.redis.lists)
      ensures !DetectBookingIntent(query) ==>
        var context := Context(History(old(memory.redis.lists), sessionId, 10));
        var hits := SearchResult(store.order, store.vectors, store.metadata, embed(query), topK, None, sim);
        match context
        case Err(e) => result == Err(e) && memory.redis.lists == old(memory.redis.lists)
        case Ok(history) =>
          var answer := Answer(query, hits, history, useCitations, llm, formatScore);
          result == Ok(QueryResult(answer.response, "general_query", false, hits, answer.citations, answer.documents))
          && memory.redis.lists
             == SaveTurn(old(memory.redis.lists), sessionId, UserMessage(query, userTime),
                         AssistantMessage(answer.response, assistantTime, |hits|))
    {
      if DetectBookingIntent(query) {
        return Ok(BookingReply);
      }
      var context := memory.GetConversationContext(sessionId);
      if context.Err? {
        return Err(context.error);
      }
      var history := context.value;
      var hits := RetrieveRelevantChunks(query, topK);
      var answer := AnswerQuery(query, hits, history, useCitations);
      var user := UserMessage(query, userTime);
      var assistant := AssistantMessage(answer.response, assistantTime, |hits|);
      ghost var lists0 := memory.redis.lists;
      memory.SaveMessage(sessionId, user);
      ghost var lists1 := memory.redis.lists;
      memory.SaveMessage(sessionId, assistant);
      SaveTurnIsTwoPushes(lists0, lists1, memory.redis.lists, sessionId, user, assistant);
      return Ok(QueryResult(answer.response, "general_query", false, hits, answer.citations, answer.documents));
    }
  }
}
