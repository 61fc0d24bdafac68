/** Knowledge-document processing: text extraction by content type, the
    paragraph / sentence chunker, and batched embedding requests. */
module RagService {
  import opened Wrappers
  import opened Text

  const MAX_BATCH_SIZE: nat := 20
  const MAX_CHUNKS_PER_DOC: nat := 100
  /** Sentence boundaries tried by the long-paragraph splitter, in order. */
  const SEPARATORS: seq<char> := ['。', '\n', '.', '、']

  function Max(a: int, b: int): int { if a >= b then a else b }
  function Min(a: int, b: int): int { if a <= b then a else b }

  /** `s[k:]` for a non-negative `k`: empty past the end. */
  function SliceFrom(s: string, k: nat): (r: string)
    ensures |r| <= |s|
    ensures k <= |s| ==> r == s[k..]
  {
    if k <= |s| then s[k..] else []
  }

  // ---------------------------------------------------------------------
  // Text extraction

  type Byte = bv8

  /** `extract_text`: plain text and markdown are decoded, PDF and DOCX are
      handed to their extractors, anything else is an error. The decoder
      and the two extractors are parameters. */
  function ExtractText(fileBytes: seq<Byte>, contentType: string, decode: seq<Byte> -> string,
                       pdf: seq<Byte> -> string, docx: seq<Byte> -> string): (r: Result<string, string>)
    ensures contentType == "text/plain" || contentType == "text/markdown" ==> r == Ok(decode(fileBytes))
    ensures contentType == "application/pdf" ==> r == Ok(pdf(fileBytes))
    ensures contentType == "application/vnd.openxmlformats-officedocument.wordprocessingml.document"
            ==> r == Ok(docx(fileBytes))
    ensures r.Err? <==> contentType !in SupportedTypes()
    ensures r.Err? ==> r.error == "Unsupported content type: " + contentType
  {
    if contentType == "text/plain" || contentType == "text/markdown" then Ok(decode(fileBytes))
    else if contentType == "application/pdf" then Ok(pdf(fileBytes))
    else if contentType == "application/vnd.openxmlformats-officedocument.wordprocessingml.document" then Ok(docx(fileBytes))
    else Err("Unsupported content type: " + contentType)
  }

  function SupportedTypes(): set<string> {
    {"text/plain", "text/markdown", "application/pdf",
     "application/vnd.openxmlformats-officedocument.wordprocessingml.document"}
  }

  // ---------------------------------------------------------------------
  // Paragraph splitting: `re.split(r"\n\n+", s)`

  predicate DoubleNewlineAt(s: string, k: int) {
    0 <= k && k + 1 < |s| && s[k] == '\n' && s[k + 1] == '\n'
  }

  ghost predicate HasDoubleNewline(s: string) {
    exists k :: DoubleNewlineAt(s, k)
  }

  /** The first position of two newlines in a row, or `|s|`. */
  function FirstDoubleNewline(s: string, from: nat): (i: nat)
    requires from <= |s|
    ensures from <= i <= |s|
    ensures i < |s| ==> DoubleNewlineAt(s, i)
    ensures forall k :: from <= k < i ==> !DoubleNewlineAt(s, k)
    decreases |s| - from
  {
    if from + 1 >= |s| then |s|
    else if s[from] == '\n' && s[from + 1] == '\n' then from
    else FirstDoubleNewline(s, from + 1)
  }

  /** The end of the run of newlines starting at `i`. */
  function RunEnd(s: string, i: nat): (j: nat)
    requires i <= |s|
    ensures i <= j <= |s|
    ensures forall k :: i <= k < j ==> s[k] == '\n'
    ensures j < |s| ==> s[j] != '\n'
    decreases |s| - i
  {
    if i < |s| && s[i] == '\n' then RunEnd(s, i + 1) else i
  }

  /** The pieces between maximal runs of two or more newlines. */
  function SplitParagraphs(s: string): (r: seq<string>)
    ensures |r| >= 1
    ensures forall k :: 0 <= k < |r| ==> !HasDoubleNewline(r[k])
    decreases |s|
  {
    var i := FirstDoubleNewline(s, 0);
    if i == |s| then
      assert !HasDoubleNewline(s);
      [s]
    else
      var j := RunEnd(s, i);
      var piece := s[..i];
      assert !HasDoubleNewline(piece) by {
        forall k | DoubleNewlineAt(piece, k) ensures false {
          assert DoubleNewlineAt(s, k);
        }
      }
      [piece] + SplitParagraphs(s[j..])
  }

  /** Text without a blank line is a single paragraph. */
  lemma SingleParagraph(s: string)
    requires !HasDoubleNewline(s)
    ensures SplitParagraphs(s) == [s]
  {
    var i := FirstDoubleNewline(s, 0);
    assert i == |s|;
  }

  /** The pieces, joined back with the blank lines they were cut at,
      give the text back when every blank line is exactly "\n\n". */
  lemma {:induction false} SplitJoin(s: string)
    requires forall k :: 0 <= k && k + 2 < |s| ==> !(s[k] == '\n' && s[k + 1] == '\n' && s[k + 2] == '\n')
    requires s == [] || s[0] != '\n'
    ensures Join(SplitParagraphs(s), "\n\n") == s
    decreases |s|
  {
    var i := FirstDoubleNewline(s, 0);
    if i < |s| {
      var j := RunEnd(s, i);
      assert s[i] == '\n' && s[i + 1] == '\n';
      if i + 2 < |s| {
        assert s[i + 2] != '\n';
      }
      var rest := s[j..];
      assert j == i + 2;
      assert rest == [] || rest[0] != '\n';
      forall k | 0 <= k && k + 2 < |rest|
        ensures !(rest[k] == '\n' && rest[k + 1] == '\n' && rest[k + 2] == '\n')
      {
        assert rest[k] == s[j + k] && rest[k + 1] == s[j + k + 1] && rest[k + 2] == s[j + k + 2];
      }
      SplitJoin(rest);
      var tail := SplitParagraphs(rest);
      assert SplitParagraphs(s) == [s[..i]] + tail;
      assert ([s[..i]] + tail)[1..] == tail;
      assert s == s[..i] + "\n\n" + rest;
    }
  }

  // ---------------------------------------------------------------------
  // Chunking

  datatype Chunk = Chunk(index: nat, text: string, tokenCount: int)

  predicate IsStripped(s: string) {
    s == [] || (!IsSpace(s[0]) && !IsSpace(s[|s| - 1]))
  }

  /** `s.rfind(c, 0, end)` for a one-character `c`. */
  function LastIndexBefore(s: string, c: char, end: nat): (r: int)
    requires end <= |s|
    ensures -1 <= r < end
    ensures r >= 0 ==> s[r] == c
    ensures forall k :: r < k < end ==> s[k] != c
  {
    if end == 0 then -1
    else if s[end - 1] == c then end - 1
    else LastIndexBefore(s, c, end - 1)
  }

  /** The first separator whose last occurrence before `size` lies beyond
      `size // 3` gives the split just after it; -1 when none does. */
  function SeparatorSplit(s: string, size: nat, seps: seq<char>): (p: int)
    requires size <= |s|
    ensures p == -1 || (size / 3 + 1 < p <= size && s[p - 1] in seps)
  {
    if seps == [] then -1
    else
      var pos := LastIndexBefore(s, seps[0], size);
      if pos > size / 3 then pos + 1 else SeparatorSplit(s, size, seps[1..])
  }

  /** Where an over-long buffer is cut: just after a sentence boundary
      when one is found in the window, else at `size`. */
  function SplitPoint(s: string, size: nat): (sp: nat)
    requires 1 <= size < |s|
    ensures 1 <= sp <= size
    ensures sp == size || (s[sp - 1] in SEPARATORS && sp - 1 > size / 3)
  {
    var p := SeparatorSplit(s, Min(size, |s|), SEPARATORS);
    if p <= 0 then size else p
  }

  /** The separator loop of the long-paragraph splitter. */
  method FindSplit(s: string, size: nat) returns (sp: int)
    requires 1 <= size < |s|
    ensures sp == SplitPoint(s, size)
  {
    sp := -1;
    var end := Min(size, |s|);
    var k := 0;
    while k < |SEPARATORS|
      invariant 0 <= k <= |SEPARATORS|
      invariant sp == -1
      invariant SeparatorSplit(s, end, SEPARATORS) == SeparatorSplit(s, end, SEPARATORS[k..])
    {
      assert SEPARATORS[k..][1..] == SEPARATORS[k + 1..];
      var pos := LastIndexBefore(s, SEPARATORS[k], end);
      if pos > size / 3 {
        sp := pos + 1;
        break;
      }
      k := k + 1;
    }
    if sp <= 0 {
      sp := size;
    }
  }

  /** Adding a paragraph to the open chunk. */
  function Absorb(current: string, para: string): string {
    if current != [] then Strip(current + "\n" + para) else para
  }

  /** Absorbing a stripped paragraph only trims the front of the open
      chunk: the result is that chunk without leading whitespace, a
      newline and the paragraph. */
  lemma AbsorbKeepsParagraph(current: string, para: string)
    requires current != [] && !IsSpace(current[|current| - 1])
    requires para != [] && !IsSpace(para[|para| - 1])
    ensures Absorb(current, para) == TrimStart(current) + "\n" + para
  {
    var tail := "\n" + para;
    Assoc(current, "\n", para);
    TrimStartDrop(current, tail);
    var t := TrimStart(current) + tail;
    assert t[|t| - 1] == para[|para| - 1];
    TrimEndNonSpace(t);
    Assoc(TrimStart(current), "\n", para);
  }

  /** Sequence concatenation is associative. */
  lemma Assoc<T>(a: seq<T>, b: seq<T>, c: seq<T>)
    ensures a + (b + c) == a + b + c
  {
  }

  /** `rstrip` leaves text that ends with a non-space alone. */
  lemma TrimEndNonSpace(t: string)
    requires t != [] && !IsSpace(t[|t| - 1])
    ensures TrimEnd(t) == t
  {
  }

  /** Trimming the front of `a + b` stops inside `a` when `a` does not end
      with whitespace. */
  lemma {:induction false} TrimStartDrop(a: string, b: string)
    requires a != [] && !IsSpace(a[|a| - 1])
    ensures TrimStart(a + b) == TrimStart(a) + b
    decreases |a|
  {
    if IsSpace(a[0]) {
      assert (a + b)[1..] == a[1..] + b;
      TrimStartDrop(a[1..], b);
    }
  }

  /** The emitted chunks are numbered from 0, stripped, and within the size
      limit below the chunk cap. */
  predicate ChunksOk(chunks: seq<Chunk>, chunkSize: int) {
    forall k :: 0 <= k < |chunks| ==>
      chunks[k].index == k && IsStripped(chunks[k].text) && (k < MAX_CHUNKS_PER_DOC ==> |chunks[k].text| <= chunkSize)
  }

  lemma AppendChunk(chunks: seq<Chunk>, c: Chunk, chunkSize: int)
    requires ChunksOk(chunks, chunkSize)
    requires c.index == |chunks| && IsStripped(c.text)
    requires |chunks| < MAX_CHUNKS_PER_DOC ==> |c.text| <= chunkSize
    ensures ChunksOk(chunks + [c], chunkSize)
  {
  }

  /** The sentence-boundary loop of `chunk_text`: while the open chunk is
      longer than `chunkSize`, its head up to the split point is emitted and
      the text from `overlap` characters before that point stays open. It
      stops at the chunk cap, after at least one emitted chunk. */
  method SplitOverlong(chunks0: seq<Chunk>, current0: string, chunkSize: int, overlap: int)
    returns (chunks: seq<Chunk>, current: string)
    requires chunkSize >= 1
    requires ChunksOk(chunks0, chunkSize)
    ensures ChunksOk(chunks, chunkSize)
    ensures |chunks0| <= |chunks| <= (if |chunks0| < MAX_CHUNKS_PER_DOC then MAX_CHUNKS_PER_DOC else |chunks0| + 1)
    ensures |chunks| < MAX_CHUNKS_PER_DOC ==> |current| <= chunkSize
    ensures |current0| <= chunkSize ==> chunks == chunks0 && current == current0
    ensures chunks[..|chunks0|] == chunks0
  {
    chunks, current := chunks0, current0;
    while |current| > chunkSize
      invariant ChunksOk(chunks, chunkSize)
      invariant chunks[..|chunks0|] == chunks0
      invariant |chunks0| <= |chunks| <= Max(|chunks0|, MAX_CHUNKS_PER_DOC - 1)
      invariant |current0| <= chunkSize ==> chunks == chunks0 && current == current0
      decreases MAX_CHUNKS_PER_DOC - |chunks|
    {
      var sp := FindSplit(current, chunkSize);
      var c := Chunk(|chunks|, Strip(current[..sp]), sp / 3);
      AppendChunk(chunks, c, chunkSize);
      chunks := chunks + [c];
      current := Strip(SliceFrom(current, Max(0, sp - overlap)));
      if |chunks| >= MAX_CHUNKS_PER_DOC {
        break;
      }
    }
  }

  /** One paragraph of `chunk_text`, stripped first; an empty one is
      skipped. */
  method AddParagraph(chunks0: seq<Chunk>, current0: string, raw: string, chunkSize: int, overlap: int)
    returns (chunks: seq<Chunk>, current: string, full: bool)
    requires chunkSize >= 1
    requires ChunksOk(chunks0, chunkSize)
    requires |chunks0| < MAX_CHUNKS_PER_DOC ==> |current0| <= chunkSize
    ensures ChunksOk(chunks, chunkSize)
    ensures |chunks| < MAX_CHUNKS_PER_DOC ==> |current| <= chunkSize
    ensures |chunks0| <= |chunks| <= Max(MAX_CHUNKS_PER_DOC, |chunks0| + 1)
    ensures full ==> |chunks| == |chunks0| + 1 >= MAX_CHUNKS_PER_DOC
    ensures Strip(raw) == [] ==> chunks == chunks0 && current == current0 && !full
    ensures chunks0 == [] && current0 == [] && Strip(raw) == raw && |raw| <= chunkSize ==>
              chunks == [] && current == raw && !full
  {
    var para := Strip(raw);
    if para == [] {
      chunks, current, full := chunks0, current0, false;
    } else {
      chunks, current, full := AddStripped(chunks0, current0, para, chunkSize, overlap);
    }
  }

  /** A non-empty stripped paragraph joins the open chunk when it fits;
      otherwise the open chunk is emitted and the next one opens with the
      overlap. `full` is the chunk cap stopping the loop right after an
      emitted chunk; otherwise the open chunk is split at sentence
      boundaries until it fits. */
  method AddStripped(chunks0: seq<Chunk>, current0: string, para: string, chunkSize: int, overlap: int)
    returns (chunks: seq<Chunk>, current: string, full: bool)
    requires chunkSize >= 1
    requires ChunksOk(chunks0, chunkSize)
    requires |chunks0| < MAX_CHUNKS_PER_DOC ==> |current0| <= chunkSize
    ensures ChunksOk(chunks, chunkSize)
    ensures |chunks| < MAX_CHUNKS_PER_DOC ==> |current| <= chunkSize
    ensures |chunks0| <= |chunks| <= Max(MAX_CHUNKS_PER_DOC, |chunks0| + 1)
    ensures full ==> |chunks| == |chunks0| + 1 >= MAX_CHUNKS_PER_DOC
    // a paragraph that fits is absorbed into the open text, or opens it
    ensures current0 != [] && |current0| + |para| + 1 <= chunkSize ==>
              chunks == chunks0 && current == Absorb(current0, para) && !full
    ensures current0 == [] && |para| <= chunkSize ==> chunks == chunks0 && current == para && !full
    ensures chunks[..|chunks0|] == chunks0
    // a flush emits the open chunk, stripped, as the next chunk
    ensures current0 != [] && |current0| + |para| + 1 > chunkSize ==>
              |chunks| > |chunks0| && chunks[|chunks0|] == Chunk(|chunks0|, Strip(current0), |current0| / 3)
    // and the next chunk opens with the last `overlap` characters of the
    // unstripped text, a newline and the paragraph, when that fits
    ensures current0 != [] && |current0| + |para| + 1 > chunkSize && overlap > 0 && |current0| > overlap &&
            (full || overlap + 1 + |para| <= chunkSize) ==>
              current == current0[|current0| - overlap..] + "\n" + para
    ensures current0 != [] && |current0| + |para| + 1 > chunkSize && !(overlap > 0 && |current0| > overlap) &&
            (full || |para| <= chunkSize) ==>
              current == para
  {
    chunks, current, full := chunks0, current0, false;
    if current != [] && |current| + |para| + 1 > chunkSize {
      chunks, current := CloseChunk(chunks, current, para, chunkSize, overlap);
      if |chunks| >= MAX_CHUNKS_PER_DOC {
        full := true;
        return;
      }
    } else {
      current := Absorb(current, para);
    }
    chunks, current := SplitOverlong(chunks, current, chunkSize, overlap);
  }

  /** Closing the open chunk: it is emitted stripped, and the next one
      opens with the last `overlap` characters of the unstripped text and a
      newline in front of the paragraph, when the text is longer than
      `overlap`. */
  method CloseChunk(chunks0: seq<Chunk>, current0: string, para: string, chunkSize: int, overlap: int)
    returns (chunks: seq<Chunk>, current: string)
    requires ChunksOk(chunks0, chunkSize)
    requires |chunks0| < MAX_CHUNKS_PER_DOC ==> |current0| <= chunkSize
    ensures ChunksOk(chunks, chunkSize)
    ensures chunks == chunks0 + [Chunk(|chunks0|, Strip(current0), |current0| / 3)]
    ensures overlap > 0 && |current0| > overlap ==> current == current0[|current0| - overlap..] + "\n" + para
    ensures !(overlap > 0 && |current0| > overlap) ==> current == para
  {
    var c := Chunk(|chunks0|, Strip(current0), |current0| / 3);
    AppendChunk(chunks0, c, chunkSize);
    chunks := chunks0 + [c];
    if overlap > 0 && |current0| > overlap {
      current := current0[|current0| - overlap..] + "\n" + para;
    } else {
      current := para;
    }
  }

  /** `chunk_text`: paragraphs are packed into chunks of at most
      `chunkSize` characters joined by newlines; closing a chunk carries an
      overlap into the next; over-long text is cut at sentence boundaries;
      the cap of `MAX_CHUNKS_PER_DOC` stops the splitting but is not a
      strict bound on the number of chunks. */
  method ChunkText(text: string, chunkSize: int, overlap: int) returns (chunks: seq<Chunk>)
    requires chunkSize >= 1
    ensures AllSpace(text) ==> chunks == []
    ensures forall k :: 0 <= k < |chunks| ==> chunks[k].index == k
    ensures forall k :: 0 <= k < |chunks| ==> IsStripped(chunks[k].text)
    ensures forall k :: 0 <= k < |chunks| && k < MAX_CHUNKS_PER_DOC ==> |chunks[k].text| <= chunkSize
    ensures !AllSpace(text) ==> |chunks| <= MAX_CHUNKS_PER_DOC + |SplitParagraphs(Strip(text))|
    ensures !HasDoubleNewline(Strip(text)) && 0 < |Strip(text)| <= chunkSize ==>
              chunks == [Chunk(0, Strip(text), |Strip(text)| / 3)]
  {
    StripEmptyIff(text);
    if Strip(text) == [] {
      return [];
    }
    var body := Strip(text);
    var paras := SplitParagraphs(body);
    if !HasDoubleNewline(body) && |body| <= chunkSize {
      SingleParagraph(body);
      StripOfStripped(body);
    }
    var packed, current := PackParagraphs(paras, chunkSize, overlap);
    chunks := Flush(packed, current, chunkSize);
  }

  /** The end of `chunk_text`: the chunk still open is emitted unless it
      is blank or the cap is reached. */
  method Flush(chunks0: seq<Chunk>, current: string, chunkSize: int) returns (chunks: seq<Chunk>)
    requires ChunksOk(chunks0, chunkSize)
    requires |chunks0| < MAX_CHUNKS_PER_DOC ==> |current| <= chunkSize
    ensures ChunksOk(chunks, chunkSize)
    ensures |chunks| <= |chunks0| + 1 && (|chunks0| >= MAX_CHUNKS_PER_DOC ==> chunks == chunks0)
    ensures chunks0 == [] && current != [] && Strip(current) == current ==> chunks == [Chunk(0, current, |current| / 3)]
  {
    chunks := chunks0;
    if Strip(current) != [] && |chunks| < MAX_CHUNKS_PER_DOC {
      var c := Chunk(|chunks|, Strip(current), |current| / 3);
      AppendChunk(chunks, c, chunkSize);
      chunks := chunks + [c];
    }
  }

  /** The paragraph loop of `chunk_text`: the emitted chunks and the chunk
      still open when it ends. A single stripped paragraph that fits stays
      open, with nothing emitted. */
  method PackParagraphs(paras: seq<string>, chunkSize: int, overlap: int) returns (chunks: seq<Chunk>, current: string)
    requires chunkSize >= 1
    ensures ChunksOk(chunks, chunkSize)
    ensures |chunks| < MAX_CHUNKS_PER_DOC ==> |current| <= chunkSize
    ensures |chunks| <= MAX_CHUNKS_PER_DOC + |paras|
    ensures |paras| == 1 && Strip(paras[0]) == paras[0] && 0 < |paras[0]| <= chunkSize ==>
              chunks == [] && current == paras[0]
  {
    ghost var single := |paras| == 1 && Strip(paras[0]) == paras[0] && 0 < |paras[0]| <= chunkSize;
    chunks := [];
    current := "";
    var i := 0;
    while i < |paras|
      invariant 0 <= i <= |paras|
      invariant ChunksOk(chunks, chunkSize)
      invariant |chunks| < MAX_CHUNKS_PER_DOC ==> |current| <= chunkSize
      invariant |chunks| <= MAX_CHUNKS_PER_DOC + i
      invariant single ==> chunks == [] && current == (if i == 0 then [] else paras[0])
    {
      var full;
      chunks, current, full := AddParagraph(chunks, current, paras[i], chunkSize, overlap);
      if full {
        break;
      }
      i := i + 1;
    }
  }

  // ---------------------------------------------------------------------
  // Embedding batches

  /** `texts[i : i + MAX_BATCH_SIZE]` for `i = 0, 20, 40, ...`. */
  function Batches(texts: seq<string>): (r: seq<seq<string>>)
    ensures forall k :: 0 <= k < |r| ==> 0 < |r[k]| <= MAX_BATCH_SIZE
    decreases |texts|
  {
    if texts == [] then []
    else if |texts| <= MAX_BATCH_SIZE then [texts]
    else [texts[..MAX_BATCH_SIZE]] + Batches(texts[MAX_BATCH_SIZE..])
  }

  function Flatten<T>(xss: seq<seq<T>>): seq<T> {
    if xss == [] then [] else xss[0] + Flatten(xss[1..])
  }

  /** The batches cover the texts exactly, in order. */
  lemma {:induction false} BatchesCover(texts: seq<string>)
    ensures Flatten(Batches(texts)) == texts
    decreases |texts|
  {
    if |texts| > MAX_BATCH_SIZE {
      var rest := texts[MAX_BATCH_SIZE..];
      BatchesCover(rest);
      assert ([texts[..MAX_BATCH_SIZE]] + Batches(rest))[1..] == Batches(rest);
      assert texts == texts[..MAX_BATCH_SIZE] + rest;
    } else if texts != [] {
      assert [texts][1..] == [];
    }
  }

  /** What the batched requests return, concatenated. */
  function EmbedAll<V>(batches: seq<seq<string>>, embed: seq<string> -> seq<V>): seq<V> {
    if batches == [] then [] else embed(batches[0]) + EmbedAll(batches[1..], embed)
  }

  lemma {:induction false} EmbedAllSnoc<V>(batches: seq<seq<string>>, b: seq<string>, embed: seq<string> -> seq<V>)
    ensures EmbedAll(batches + [b], embed) == EmbedAll(batches, embed) + embed(b)
  {
    if batches != [] {
      assert (batches + [b])[1..] == batches[1..] + [b];
      EmbedAllSnoc(batches[1..], b, embed);
    }
  }

  /** With one vector per text from each request, there is one vector
      per input text. */
  lemma {:induction false} EmbedAllLength<V>(batches: seq<seq<string>>, embed: seq<string> -> seq<V>)
    requires forall b :: |embed(b)| == |b|
    ensures |EmbedAll(batches, embed)| == |Flatten(batches)|
  {
    if batches != [] {
      EmbedAllLength(batches[1..], embed);
    }
  }

  /** `generate_embeddings`: one request per batch of at most
      `MAX_BATCH_SIZE` texts, results concatenated in order. The embedding
      service is the parameter `embed`. */
  method GenerateEmbeddings<V>(texts: seq<string>, embed: seq<string> -> seq<V>) returns (all: seq<V>)
    ensures all == EmbedAll(Batches(texts), embed)
  {
    all := [];
    var i := 0;
    ghost var done: seq<seq<string>> := [];
    while i < |texts|
      invariant 0 <= i <= |texts|
      invariant done + Batches(texts[i..]) == Batches(texts)
      invariant all == EmbedAll(done, embed)
      decreases |texts| - i
    {
      var end := Min(i + MAX_BATCH_SIZE, |texts|);
      var batch := texts[i..end];
      BatchAt(texts, done, i);
      EmbedAllSnoc(done, batch, embed);
      all := all + embed(batch);
      done := done + [batch];
      i := end;
    }
    assert texts[i..] == [] && done + [] == done;
  }

  /** The batches from position `i` on: the one starting at `i`, then
      those after it. */
  lemma BatchAt(texts: seq<string>, done: seq<seq<string>>, i: nat)
    requires i < |texts| && done + Batches(texts[i..]) == Batches(texts)
    ensures (done + [texts[i..Min(i + MAX_BATCH_SIZE, |texts|)]]) + Batches(texts[Min(i + MAX_BATCH_SIZE, |texts|)..]) == Batches(texts)
  {
    BatchFrom(texts, i);
  }

  lemma BatchFrom(texts: seq<string>, i: nat)
    requires i < |texts|
    ensures Batches(texts[i..]) == [texts[i..Min(i + MAX_BATCH_SIZE, |texts|)]] + Batches(texts[Min(i + MAX_BATCH_SIZE, |texts|)..])
  {
    if |texts[i..]| > MAX_BATCH_SIZE {
      assert texts[i..][..MAX_BATCH_SIZE] == texts[i..i + MAX_BATCH_SIZE];
      assert texts[i..][MAX_BATCH_SIZE..] == texts[i + MAX_BATCH_SIZE..];
    } else {
      assert texts[i..] == texts[i..|texts|];
      assert texts[|texts|..] == [];
    }
  }
}
