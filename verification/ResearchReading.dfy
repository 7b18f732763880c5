/** Reading pages in chunks for research: which chunk an EXTRACT step reads, when a chunk is
    answered from memory, and where the saved evidence comes from. */
module ResearchReading {
  import opened Basics
  import opened Arithmetic
  import opened ResearchAnswers

  const CHUNK: nat := 10_000

  /** A page as the browser shows it, its text already sanitised and redacted. */
  datatype Page = Page(url: string, title: string, content: string)

  /** One bounded read of a page. */
  datatype Chunk = Chunk(url: string, title: string, contentHash: string, offset: nat, text: string, remaining: nat)

  type PageHash = string -> string

  /** _page_chunk */
  function PageChunk(hash: PageHash, p: Page, offset: nat): Chunk {
    var from := Min(offset, |p.content|);
    var text := p.content[from..Min(from + CHUNK, |p.content|)];
    Chunk(p.url, p.title, hash(p.content), from, text, |p.content| - from - |text|)
  }

  /** What the loop remembers of a chunk it has read. */
  datatype Record = Record(url: string, contentHash: string, offset: nat, remaining: nat)

  predicate OfPage(r: Record, url: string, contentHash: string) {
    r.url == url && r.contentHash == contentHash
  }

  /** The first offset after every chunk of the page that leaves something to read. */
  function NextOffset(pages: seq<Record>, url: string, contentHash: string): nat {
    if pages == [] then 0
    else
      var r, before := pages[|pages| - 1], NextOffset(pages[..|pages| - 1], url, contentHash);
      if OfPage(r, url, contentHash) && r.remaining > 0 then Max(before, r.offset + CHUNK) else before
  }

  /** What the browser shows at the three reads of one step. */
  datatype Visit = Visit(first: Page, second: Page, third: Page)

  /** The chunk an EXTRACT step settles on: it starts over if the page changed meanwhile. */
  function ChooseChunk(hash: PageHash, pages: seq<Record>, v: Visit): Chunk {
    var start := PageChunk(hash, v.first, 0);
    var offset := NextOffset(pages, start.url, start.contentHash);
    if offset == 0 then start
    else
      var chunk := PageChunk(hash, v.second, offset);
      if chunk.contentHash == start.contentHash then chunk else PageChunk(hash, v.third, 0)
  }

  predicate Cached(pages: seq<Record>, c: Chunk) {
    exists i :: 0 <= i < |pages| && OfPage(pages[i], c.url, c.contentHash) && pages[i].offset == c.offset
  }

  // ---------- one step ----------

  /** `chunks` lists every chunk handed to the extraction model; evidence is traced back to it. */
  datatype Notebook = Notebook(evidence: seq<Evidence>, pages: seq<Record>, modelCalls: nat, chunks: seq<Chunk>)

  const BLANK := Notebook([], [], 0, [])

  /** What the model answered and which identifiers were drawn; `completes` is false when a
      gate abandons the step after the model call. */
  datatype Reply = Reply(findings: Option<seq<Finding>>, ids: seq<string>, completes: bool)

  predicate Usable(lib: Library, fields: set<string>, c: Chunk, reply: Reply) {
    && reply.findings.Some? && |reply.ids| >= |reply.findings.value|
    && WithinSchema(reply.findings.value) && lib.httpSource(c.url)
    && forall i :: 0 <= i < |reply.findings.value| ==> Supported(lib, fields, c.text, reply.findings.value[i])
  }

  function EvidenceFrom(c: Chunk, reply: Reply): seq<Evidence>
    requires reply.findings.Some? && |reply.ids| >= |reply.findings.value|
  {
    seq(|reply.findings.value|, i requires 0 <= i < |reply.findings.value| =>
      Evidence(reply.ids[i], reply.findings.value[i], Source(c.url, c.title, c.contentHash, c.offset)))
  }

  /** An EXTRACT step; an error ends the run. */
  function Extract(
    lib: Library, hash: PageHash, fields: set<string>, n: Notebook, v: Visit, reply: Reply): Result<Notebook>
  {
    var c := ChooseChunk(hash, n.pages, v);
    if c.text == "" then Err("no usable text")
    else if Cached(n.pages, c) then Ok(n)
    else if !Usable(lib, fields, c, reply) then Err("invalid research extraction")
    else if !reply.completes then Ok(n.(modelCalls := n.modelCalls + 1, chunks := n.chunks + [c]))
    else
      Ok(Notebook(
        n.evidence + EvidenceFrom(c, reply),
        n.pages + [Record(c.url, c.contentHash, c.offset, c.remaining)],
        n.modelCalls + 1,
        n.chunks + [c]))
  }

  /** All steps of a run, stopping at the first error. */
  function ExtractAll(lib: Library, hash: PageHash, fields: set<string>, steps: seq<(Visit, Reply)>): Result<Notebook> {
    if steps == [] then Ok(BLANK)
    else
      match ExtractAll(lib, hash, fields, steps[..|steps| - 1])
      case Err(why) => Err(why)
      case Ok(n) => Extract(lib, hash, fields, n, steps[|steps| - 1].0, steps[|steps| - 1].1)
  }

  // ---------- which chunk a step reads ----------

  /** A chunk is the next 10000 characters of the page from its offset on, or what is left. */
  lemma ChunkIsOfPage(hash: PageHash, p: Page, offset: nat)
    ensures
      var c := PageChunk(hash, p, offset);
      && c.url == p.url && c.title == p.title && c.contentHash == hash(p.content)
      && c.offset + |c.text| + c.remaining == |p.content|
      && c.text == p.content[c.offset..c.offset + |c.text|]
      && (offset <= |p.content| ==> c.offset == offset)
      && |c.text| <= 10_000 && (c.remaining > 0 ==> |c.text| == 10_000)
  {
  }

  /** The record is of a chunk of the page that leaves something to read. */
  predicate Unfinished(pages: seq<Record>, i: int, p: Page, hash: PageHash) {
    0 <= i < |pages| && pages[i].url == p.url && pages[i].contentHash == hash(p.content) && pages[i].remaining > 0
  }

  lemma {:induction false} NextOffsetIsFurthest(pages: seq<Record>, p: Page, hash: PageHash)
    ensures var next := NextOffset(pages, p.url, hash(p.content));
            && (forall i :: Unfinished(pages, i, p, hash) ==> pages[i].offset + 10_000 <= next)
            && (next > 0 ==> exists i :: Unfinished(pages, i, p, hash) && pages[i].offset + 10_000 == next)
  {
    if pages != [] {
      var before := pages[..|pages| - 1];
      NextOffsetIsFurthest(before, p, hash);
      assert forall i :: 0 <= i < |before| ==> before[i] == pages[i];
      forall i ensures Unfinished(pages, i, p, hash)
                       <==> Unfinished(before, i, p, hash)
                            || (i == |before| && OfPage(pages[i], p.url, hash(p.content)) && pages[i].remaining > 0)
      {
      }
      if exists i :: Unfinished(before, i, p, hash)
                     && before[i].offset + 10_000 == NextOffset(pages, p.url, hash(p.content)) {
        var i :| Unfinished(before, i, p, hash)
                 && before[i].offset + 10_000 == NextOffset(pages, p.url, hash(p.content));
        assert Unfinished(pages, i, p, hash);
      } else if NextOffset(pages, p.url, hash(p.content)) > 0 {
        assert Unfinished(pages, |before|, p, hash);
      }
    }
  }

  /** A page with no unfinished chunk is read from its start; an unfinished one is continued
      after its furthest chunk; and one whose text changed meanwhile is started over. */
  lemma ChunkContinuesPage(hash: PageHash, pages: seq<Record>, v: Visit)
    requires Injective(hash)
    ensures
      var c := ChooseChunk(hash, pages, v);
      if forall i :: !Unfinished(pages, i, v.first, hash) then c == PageChunk(hash, v.first, 0)
      else if v.first.content != v.second.content then c == PageChunk(hash, v.third, 0)
      else exists i :: Unfinished(pages, i, v.first, hash)
                       && c == PageChunk(hash, v.second, pages[i].offset + 10_000)
                       && forall j :: Unfinished(pages, j, v.first, hash) ==> pages[j].offset <= pages[i].offset
  {
    hide NextOffset, PageChunk;
    NextOffsetIsFurthest(pages, v.first, hash);
    ChunkIsOfPage(hash, v.first, 0);
    var next := NextOffset(pages, v.first.url, hash(v.first.content));
    ChunkIsOfPage(hash, v.second, next);
    if next == 0 {
      assert forall i :: !Unfinished(pages, i, v.first, hash);
    } else {
      var i :| Unfinished(pages, i, v.first, hash) && pages[i].offset + 10_000 == next;
      assert forall j :: Unfinished(pages, j, v.first, hash) ==> pages[j].offset <= pages[i].offset;
      hide Unfinished;
    }
  }

  // ---------- the chunks of one page ----------

  /** The records of one page, in the order they were made. */
  function RecordsOf(pages: seq<Record>, url: string, contentHash: string): seq<Record> {
    if pages == [] then []
    else
      var r, before := pages[|pages| - 1], RecordsOf(pages[..|pages| - 1], url, contentHash);
      if OfPage(r, url, contentHash) then before + [r] else before
  }

  /** How many chunks a page of `length` has. */
  function ChunkCount(length: nat): nat {
    (length + CHUNK - 1) / CHUNK
  }

  /** Records of a page of the given length that were made in reading order, from the start. */
  predicate InReadingOrder(records: seq<Record>, length: nat) {
    && |records| <= ChunkCount(length)
    && forall i :: 0 <= i < |records| ==>
         records[i].offset == i * CHUNK
         && records[i].remaining == if length <= (i + 1) * CHUNK then 0 else length - (i + 1) * CHUNK
  }

  lemma ChunkCountBounds(length: nat, n: nat)
    ensures n < ChunkCount(length) <==> n * CHUNK < length
  {
  }

  /** Where the next read of the page starts, from its records alone. */
  lemma {:induction false} NextOffsetOfRecords(pages: seq<Record>, url: string, contentHash: string, length: nat)
    requires InReadingOrder(RecordsOf(pages, url, contentHash), length)
    ensures var n := |RecordsOf(pages, url, contentHash)|;
            NextOffset(pages, url, contentHash)
            == if n == 0 then 0 else if n * CHUNK < length then n * CHUNK else (n - 1) * CHUNK
  {
    if pages != [] {
      var before, r := pages[..|pages| - 1], pages[|pages| - 1];
      var earlier := RecordsOf(before, url, contentHash);
      if OfPage(r, url, contentHash) {
        assert RecordsOf(pages, url, contentHash)[..|earlier|] == earlier;
        assert RecordsOf(pages, url, contentHash)[|earlier|] == r;
        ChunkCountBounds(length, |earlier|);
      }
      NextOffsetOfRecords(before, url, contentHash, length);
    }
  }

  lemma {:induction false} CachedInRecords(pages: seq<Record>, c: Chunk)
    ensures Cached(pages, c) <==>
      exists i :: 0 <= i < |RecordsOf(pages, c.url, c.contentHash)|
                  && RecordsOf(pages, c.url, c.contentHash)[i].offset == c.offset
  {
    if pages != [] {
      var before, r := pages[..|pages| - 1], pages[|pages| - 1];
      CachedInRecords(before, c);
      var records := RecordsOf(pages, c.url, c.contentHash);
      if Cached(before, c) {
        var i :| 0 <= i < |before| && OfPage(before[i], c.url, c.contentHash) && before[i].offset == c.offset;
        assert pages[i] == before[i];
        var own := RecordsOf(before, c.url, c.contentHash);
        var k :| 0 <= k < |own| && own[k].offset == c.offset;
        assert records[k].offset == c.offset;
      }
      if OfPage(r, c.url, c.contentHash) && r.offset == c.offset {
        assert records[|records| - 1] == r;
      }
    }
  }

  /** The text moves to the address `url` between two reads, and the step records a chunk of
      it there that is not the next unread one: it continues the other address instead. */
  predicate Skips(hash: PageHash, n: Notebook, v: Visit, reply: Reply, url: string, content: string) {
    var next := NextOffset(n.pages, v.first.url, hash(content));
    && v.first.content == content && v.second.content == content
    && v.first.url != url && v.second.url == url
    && next != 0 && next != |RecordsOf(n.pages, url, hash(content))| * CHUNK
    && !Cached(n.pages, PageChunk(hash, v.second, next))
    && reply.completes
  }

  /** The chunk that a completed step adds a record of, if any. */
  predicate Records(hash: PageHash, n: Notebook, v: Visit, reply: Reply) {
    !Cached(n.pages, ChooseChunk(hash, n.pages, v)) && reply.completes
  }

  /** A step that records a chunk of the page either skips, or records the next unread one. */
  lemma RecordedChunk(hash: PageHash, n: Notebook, v: Visit, reply: Reply, url: string, content: string)
    requires Injective(hash) && content != ""
    requires InReadingOrder(RecordsOf(n.pages, url, hash(content)), |content|)
    requires var c := ChooseChunk(hash, n.pages, v); c.url == url && c.contentHash == hash(content) && c.text != ""
    requires Records(hash, n, v, reply)
    ensures
      var c, k := ChooseChunk(hash, n.pages, v), |RecordsOf(n.pages, url, hash(content))|;
      && c.offset < |content| && c.remaining == |content| - Min(c.offset + CHUNK, |content|)
      && (c.offset == k * CHUNK <==> !Skips(hash, n, v, reply, url, content))
  {
    var start := PageChunk(hash, v.first, 0);
    var next := NextOffset(n.pages, start.url, start.contentHash);
    var c, records := ChooseChunk(hash, n.pages, v), RecordsOf(n.pages, url, hash(content));
    CachedInRecords(n.pages, c);
    NextOffsetOfRecords(n.pages, url, hash(content), |content|);
    assert |records| > 0 ==> records[0].offset != c.offset && records[|records| - 1].offset != c.offset;
    if next != 0 && PageChunk(hash, v.second, next).contentHash == start.contentHash {
      assert v.second.content == v.first.content == content;
    }
  }

  /** A step whose settled chunk is of another page, cached, or abandoned, does not skip. */
  lemma OtherStepsDoNotSkip(hash: PageHash, n: Notebook, v: Visit, reply: Reply, url: string, content: string)
    requires var c := ChooseChunk(hash, n.pages, v);
             c.url != url || c.contentHash != hash(content) || !Records(hash, n, v, reply)
    ensures !Skips(hash, n, v, reply, url, content)
  {
  }

  /** From a state in which a page was read in order, a step keeps the order exactly when it
      does not skip. */
  lemma OrderIsKeptIff(
    lib: Library, hash: PageHash, fields: set<string>, n: Notebook, v: Visit, reply: Reply,
    url: string, content: string)
    requires Injective(hash) && content != ""
    requires InReadingOrder(RecordsOf(n.pages, url, hash(content)), |content|)
    requires Extract(lib, hash, fields, n, v, reply).Ok?
    ensures
      InReadingOrder(RecordsOf(Extract(lib, hash, fields, n, v, reply).value.pages, url, hash(content)), |content|)
      <==> !Skips(hash, n, v, reply, url, content)
  {
    var c, after := ChooseChunk(hash, n.pages, v), Extract(lib, hash, fields, n, v, reply).value;
    if Records(hash, n, v, reply) && c.url == url && c.contentHash == hash(content) {
      var r := Record(c.url, c.contentHash, c.offset, c.remaining);
      assert after.pages[..|after.pages| - 1] == n.pages;
      RecordedChunk(hash, n, v, reply, url, content);
      OneMoreInOrder(RecordsOf(n.pages, url, hash(content)), r, |content|);
    } else {
      OtherStepsDoNotSkip(hash, n, v, reply, url, content);
      if after.pages != n.pages { assert after.pages[..|after.pages| - 1] == n.pages; }
    }
  }

  lemma OneMoreInOrder(records: seq<Record>, r: Record, length: nat)
    requires InReadingOrder(records, length) && r.offset < length
    requires r.remaining == length - Min(r.offset + CHUNK, length)
    ensures InReadingOrder(records + [r], length) <==> r.offset == |records| * CHUNK
  {
    ChunkCountBounds(length, |records|);
    assert (records + [r])[|records|] == r;
  }

  /** Records are only added: order once lost is never regained. */
  lemma DisorderStays(
    lib: Library, hash: PageHash, fields: set<string>, n: Notebook, v: Visit, reply: Reply,
    url: string, content: string)
    requires Extract(lib, hash, fields, n, v, reply).Ok?
    requires var after := Extract(lib, hash, fields, n, v, reply).value;
             InReadingOrder(RecordsOf(after.pages, url, hash(content)), |content|)
    ensures InReadingOrder(RecordsOf(n.pages, url, hash(content)), |content|)
  {
    var after := Extract(lib, hash, fields, n, v, reply).value;
    if after.pages != n.pages {
      assert after.pages[..|after.pages| - 1] == n.pages;
      var earlier, later := RecordsOf(n.pages, url, hash(content)), RecordsOf(after.pages, url, hash(content));
      assert later[..|earlier|] == earlier;
      forall i | 0 <= i < |earlier| ensures earlier[i] == later[i] {}
    }
  }

  /** The step at `k` skips, in the state that the steps before it lead to. */
  predicate SkipsAt(
    lib: Library, hash: PageHash, fields: set<string>, steps: seq<(Visit, Reply)>, k: nat, url: string, content: string)
    requires k < |steps|
  {
    var before := ExtractAll(lib, hash, fields, steps[..k]);
    before.Ok? && Skips(hash, before.value, steps[k].0, steps[k].1, url, content)
  }

  ghost predicate NeverSkips(
    lib: Library, hash: PageHash, fields: set<string>, steps: seq<(Visit, Reply)>, url: string, content: string)
  {
    forall k :: 0 <= k < |steps| ==> !SkipsAt(lib, hash, fields, steps, k, url, content)
  }

  lemma NeverSkipsSplits(
    lib: Library, hash: PageHash, fields: set<string>, steps: seq<(Visit, Reply)>, url: string, content: string)
    requires steps != []
    ensures NeverSkips(lib, hash, fields, steps, url, content)
            <==> NeverSkips(lib, hash, fields, steps[..|steps| - 1], url, content)
                 && !SkipsAt(lib, hash, fields, steps, |steps| - 1, url, content)
  {
    hide Skips, ExtractAll;
    var m := |steps| - 1;
    forall k | 0 <= k < m
      ensures SkipsAt(lib, hash, fields, steps, k, url, content)
              <==> SkipsAt(lib, hash, fields, steps[..m], k, url, content)
    {
      assert steps[..m][..k] == steps[..k];
    }
  }

  /** Whatever other pages are visited in between, the completed reads of an unchanged page
      start at 0, 10000, 20000 and so on if and only if no step skips. */
  lemma {:induction false} PagesAreReadInOrder(
    lib: Library, hash: PageHash, fields: set<string>, steps: seq<(Visit, Reply)>, url: string, content: string)
    requires Injective(hash) && content != ""
    requires ExtractAll(lib, hash, fields, steps).Ok?
    ensures
      InReadingOrder(RecordsOf(ExtractAll(lib, hash, fields, steps).value.pages, url, hash(content)), |content|)
      <==> NeverSkips(lib, hash, fields, steps, url, content)
  {
    if steps != [] {
      var before, last := steps[..|steps| - 1], steps[|steps| - 1];
      PagesAreReadInOrder(lib, hash, fields, before, url, content);
      NeverSkipsSplits(lib, hash, fields, steps, url, content);
      hide InReadingOrder, Skips, Extract, Injective, NeverSkips;
      var n, after := ExtractAll(lib, hash, fields, before).value, ExtractAll(lib, hash, fields, steps).value;
      if InReadingOrder(RecordsOf(n.pages, url, hash(content)), |content|) {
        OrderIsKeptIff(lib, hash, fields, n, last.0, last.1, url, content);
      } else if InReadingOrder(RecordsOf(after.pages, url, hash(content)), |content|) {
        DisorderStays(lib, hash, fields, n, last.0, last.1, url, content);
      }
    }
  }

  /** Between the reads of one step the text does not move to another address. */
  predicate Steady(v: Visit) {
    v.first.content == v.second.content ==> v.first.url == v.second.url
  }

  /** In particular pages are read in order as long as no text of theirs moves. */
  lemma SteadyPagesAreReadInOrder(
    lib: Library, hash: PageHash, fields: set<string>, steps: seq<(Visit, Reply)>, url: string, content: string)
    requires Injective(hash) && content != ""
    requires forall k :: 0 <= k < |steps| && steps[k].0.first.content == content ==> Steady(steps[k].0)
    requires ExtractAll(lib, hash, fields, steps).Ok?
    ensures InReadingOrder(RecordsOf(ExtractAll(lib, hash, fields, steps).value.pages, url, hash(content)), |content|)
  {
    PagesAreReadInOrder(lib, hash, fields, steps, url, content);
  }

  /** The next visit to the page reads the first unread chunk; once every chunk has been
      read, it is answered from memory, with no model call and nothing saved. */
  lemma NextVisit(lib: Library, hash: PageHash, fields: set<string>, n: Notebook, p: Page, reply: Reply)
    requires Injective(hash) && p.content != ""
    requires InReadingOrder(RecordsOf(n.pages, p.url, hash(p.content)), |p.content|)
    ensures
      var k := |RecordsOf(n.pages, p.url, hash(p.content))|;
      var c, step := ChooseChunk(hash, n.pages, Visit(p, p, p)), Extract(lib, hash, fields, n, Visit(p, p, p), reply);
      if k < ChunkCount(|p.content|) then
        && c.offset == k * CHUNK && !Cached(n.pages, c) && c.text != ""
        && (step.Ok? <==> Usable(lib, fields, c, reply))
        && (step.Ok? ==> step.value.modelCalls == n.modelCalls + 1)
        && (step.Ok? && reply.completes ==>
              RecordsOf(step.value.pages, p.url, hash(p.content))
              == RecordsOf(n.pages, p.url, hash(p.content)) + [Record(c.url, c.contentHash, c.offset, c.remaining)])
      else step == Ok(n)
  {
    hide Injective;
    var records := RecordsOf(n.pages, p.url, hash(p.content));
    var c := ChooseChunk(hash, n.pages, Visit(p, p, p));
    NextOffsetOfRecords(n.pages, p.url, hash(p.content), |p.content|);
    ChunkCountBounds(|p.content|, |records|);
    CachedInRecords(n.pages, c);
    if |records| < ChunkCount(|p.content|) {
      var step := Extract(lib, hash, fields, n, Visit(p, p, p), reply);
      if step.Ok? && reply.completes {
        assert step.value.pages[..|step.value.pages| - 1] == n.pages;
      }
    } else {
      assert records[|records| - 1].offset == c.offset;
    }
  }

  /** The texts of the recorded chunks, joined. */
  function ReadSoFar(records: seq<Record>, content: string): string {
    if records == [] then []
    else
      var r := records[|records| - 1];
      ReadSoFar(records[..|records| - 1], content)
      + if r.offset <= |content| then content[r.offset..Min(r.offset + CHUNK, |content|)] else []
  }

  lemma {:induction false} ReadIsPrefix(records: seq<Record>, content: string)
    requires InReadingOrder(records, |content|)
    ensures ReadSoFar(records, content) == content[..Min(|records| * CHUNK, |content|)]
  {
    if records != [] {
      var m := |records| - 1;
      ChunkCountBounds(|content|, m);
      assert InReadingOrder(records[..m], |content|);
      ReadIsPrefix(records[..m], content);
      assert records[m].offset == m * CHUNK;
      Joined(content, m * CHUNK, Min((m + 1) * CHUNK, |content|));
    }
  }

  lemma Joined(content: string, a: nat, b: nat)
    requires a <= b <= |content|
    ensures content[..a] + content[a..b] == content[..b]
  {
  }

  /** After ceil(length / 10000) completed reads the chunks are exactly the page. */
  lemma WholePageIsRead(records: seq<Record>, content: string)
    requires InReadingOrder(records, |content|) && |records| == ChunkCount(|content|)
    ensures ReadSoFar(records, content) == content
  {
    ReadIsPrefix(records, content);
    ChunkCountBounds(|content|, |records|);
    assert content[..|content|] == content;
  }

  // ---------- provenance ----------

  /** The reads of the page that a step makes, in order; the last one is the chosen chunk. */
  function ReadsOf(hash: PageHash, pages: seq<Record>, v: Visit): (made: seq<Chunk>)
    ensures made != [] && made[|made| - 1] == ChooseChunk(hash, pages, v)
  {
    var start := PageChunk(hash, v.first, 0);
    var offset := NextOffset(pages, start.url, start.contentHash);
    if offset == 0 then [start]
    else
      var chunk := PageChunk(hash, v.second, offset);
      if chunk.contentHash == start.contentHash then [start, chunk] else [start, chunk, PageChunk(hash, v.third, 0)]
  }

  /** The step at `k` read the chunk from the browser. */
  predicate ReadAt(
    lib: Library, hash: PageHash, fields: set<string>, steps: seq<(Visit, Reply)>, k: nat, c: Chunk)
    requires k < |steps|
  {
    var before := ExtractAll(lib, hash, fields, steps[..k]);
    before.Ok? && c in ReadsOf(hash, before.value.pages, steps[k].0)
  }

  ghost predicate WasRead(lib: Library, hash: PageHash, fields: set<string>, steps: seq<(Visit, Reply)>, c: Chunk) {
    exists k :: 0 <= k < |steps| && ReadAt(lib, hash, fields, steps, k, c)
  }

  /** The evidence names the chunk's address, title, hash and offset and quotes its text. */
  predicate Quotes(c: Chunk, e: Evidence) {
    && e.source == Source(c.url, c.title, c.contentHash, c.offset)
    && Contains(c.text, e.finding.excerpt)
  }

  ghost predicate Proven(
    lib: Library, hash: PageHash, fields: set<string>, steps: seq<(Visit, Reply)>, n: Notebook, e: Evidence)
  {
    exists c :: c in n.chunks && WasRead(lib, hash, fields, steps, c) && Quotes(c, e)
  }

  lemma NewEvidenceQuotes(lib: Library, fields: set<string>, c: Chunk, reply: Reply, e: Evidence)
    requires Usable(lib, fields, c, reply) && e in EvidenceFrom(c, reply)
    ensures Quotes(c, e)
  {
    var i :| 0 <= i < |reply.findings.value| && EvidenceFrom(c, reply)[i] == e;
    assert Supported(lib, fields, c.text, reply.findings.value[i]);
  }

  lemma WasReadStays(lib: Library, hash: PageHash, fields: set<string>, steps: seq<(Visit, Reply)>, c: Chunk)
    requires steps != [] && WasRead(lib, hash, fields, steps[..|steps| - 1], c)
    ensures WasRead(lib, hash, fields, steps, c)
  {
    hide ExtractAll, ReadsOf;
    var before := steps[..|steps| - 1];
    var k :| 0 <= k < |before| && ReadAt(lib, hash, fields, before, k, c);
    assert before[..k] == steps[..k];
    assert ReadAt(lib, hash, fields, steps, k, c);
  }

  /** The step that the notebook grew by: its evidence quotes the chunk it settled on. */
  lemma NewEvidenceIsProven(
    lib: Library, hash: PageHash, fields: set<string>, steps: seq<(Visit, Reply)>,
    n: Notebook, after: Notebook, e: Evidence)
    requires steps != [] && ExtractAll(lib, hash, fields, steps[..|steps| - 1]) == Ok(n)
    requires ExtractAll(lib, hash, fields, steps) == Ok(after)
    requires e in after.evidence && e !in n.evidence
    ensures Proven(lib, hash, fields, steps, after, e)
  {
    var last := steps[|steps| - 1];
    var c := ChooseChunk(hash, n.pages, last.0);
    NewEvidenceQuotes(lib, fields, c, last.1, e);
    assert c in ReadsOf(hash, n.pages, last.0);
    assert ReadAt(lib, hash, fields, steps, |steps| - 1, c);
    assert c in after.chunks;
  }

  lemma OldEvidenceIsProven(
    lib: Library, hash: PageHash, fields: set<string>, steps: seq<(Visit, Reply)>,
    n: Notebook, after: Notebook, e: Evidence)
    requires steps != [] && n.chunks <= after.chunks
    requires Proven(lib, hash, fields, steps[..|steps| - 1], n, e)
    ensures Proven(lib, hash, fields, steps, after, e)
  {
    hide WasRead, Quotes;
    var c :| c in n.chunks && WasRead(lib, hash, fields, steps[..|steps| - 1], c) && Quotes(c, e);
    WasReadStays(lib, hash, fields, steps, c);
    assert c in after.chunks;
  }

  /** Every piece of evidence names and quotes a chunk that a step read from the browser and
      handed to the extraction model. */
  lemma {:induction false} EvidenceIsProven(
    lib: Library, hash: PageHash, fields: set<string>, steps: seq<(Visit, Reply)>)
    requires ExtractAll(lib, hash, fields, steps).Ok?
    ensures var n := ExtractAll(lib, hash, fields, steps).value;
            forall e :: e in n.evidence ==> Proven(lib, hash, fields, steps, n, e)
  {
    if steps != [] {
      var before := steps[..|steps| - 1];
      EvidenceIsProven(lib, hash, fields, before);
      var n, after := ExtractAll(lib, hash, fields, before).value, ExtractAll(lib, hash, fields, steps).value;
      assert n.chunks <= after.chunks;
      hide ExtractAll, Proven;
      forall e | e in after.evidence ensures Proven(lib, hash, fields, steps, after, e) {
        if e in n.evidence {
          OldEvidenceIsProven(lib, hash, fields, steps, n, after, e);
        } else {
          NewEvidenceIsProven(lib, hash, fields, steps, n, after, e);
        }
      }
    }
  }

  /** Every source of an accepted final answer names and quotes a chunk that was read. */
  lemma CitedExcerptsWereRead(
    lib: Library, hash: PageHash, fields: set<string>, steps: seq<(Visit, Reply)>,
    parsed: Option<seq<(string, FieldAnswer)>>, i: nat, source: Evidence)
    requires ExtractAll(lib, hash, fields, steps).Ok?
    requires Accepted(lib, parsed, fields, ExtractAll(lib, hash, fields, steps).value.evidence) && i < |parsed.value|
    requires source in Resolved(SavedBy(ExtractAll(lib, hash, fields, steps).value.evidence), parsed.value[i].1).sources
    ensures Proven(lib, hash, fields, steps, ExtractAll(lib, hash, fields, steps).value, source)
    ensures source.finding.field == parsed.value[i].0
  {
    EvidenceIsProven(lib, hash, fields, steps);
    AcceptedAnswerFitsEvidence(lib, parsed, fields, ExtractAll(lib, hash, fields, steps).value.evidence, i);
  }

  // ---------- nothing is lost ----------

  lemma {:induction false} EvidenceStays(
    lib: Library, hash: PageHash, fields: set<string>, steps: seq<(Visit, Reply)>, k: nat)
    requires k <= |steps| && ExtractAll(lib, hash, fields, steps).Ok?
    ensures ExtractAll(lib, hash, fields, steps[..k]).Ok?
    ensures ExtractAll(lib, hash, fields, steps[..k]).value.evidence
            <= ExtractAll(lib, hash, fields, steps).value.evidence
  {
    if k < |steps| {
      var before := steps[..|steps| - 1];
      assert before[..k] == steps[..k];
      EvidenceStays(lib, hash, fields, before, k);
    } else {
      assert steps[..k] == steps;
    }
  }

  /** Every finding of every step that read a new chunk and was not abandoned is in the
      evidence at the end, with the provenance of that chunk. */
  lemma FindingsAreKept(
    lib: Library, hash: PageHash, fields: set<string>, steps: seq<(Visit, Reply)>, k: nat, before: Notebook, i: nat)
    requires ExtractAll(lib, hash, fields, steps).Ok? && k < |steps|
    requires ExtractAll(lib, hash, fields, steps[..k]) == Ok(before)
    requires var c := ChooseChunk(hash, before.pages, steps[k].0); !Cached(before.pages, c)
    requires var reply := steps[k].1;
             reply.completes && reply.findings.Some? && i < |reply.findings.value| && i < |reply.ids|
    ensures var c, reply := ChooseChunk(hash, before.pages, steps[k].0), steps[k].1;
            Evidence(reply.ids[i], reply.findings.value[i], Source(c.url, c.title, c.contentHash, c.offset))
            in ExtractAll(lib, hash, fields, steps).value.evidence
  {
    EvidenceStays(lib, hash, fields, steps, k + 1);
    assert steps[..k + 1][..k] == steps[..k];
    var c, reply := ChooseChunk(hash, before.pages, steps[k].0), steps[k].1;
    var after := ExtractAll(lib, hash, fields, steps[..k + 1]);
    assert after == Extract(lib, hash, fields, before, steps[k].0, reply);
    hide ExtractAll, ChooseChunk, Cached, Usable;
    var e := EvidenceFrom(c, reply)[i];
    assert after.value.evidence[|before.evidence| + i] == e;
  }

  /** All evidence is of a requested field and of a web page, has a value and an excerpt
      within bounds, and neither shows credentials. */
  lemma {:induction false} EvidenceIsSupported(
    lib: Library, hash: PageHash, fields: set<string>, steps: seq<(Visit, Reply)>, e: Evidence)
    requires ExtractAll(lib, hash, fields, steps).Ok? && e in ExtractAll(lib, hash, fields, steps).value.evidence
    ensures e.finding.field in fields && e.finding.field != "" && lib.httpSource(e.source.url)
    ensures 1 <= |e.finding.value| <= 2000 && !lib.blank(e.finding.value)
    ensures 1 <= |e.finding.excerpt| <= 2000 && !lib.blank(e.finding.excerpt)
    ensures !Contains(e.finding.excerpt, "[REDACTED]") && lib.redact(e.finding.value) == e.finding.value
  {
    if steps != [] {
      var n := ExtractAll(lib, hash, fields, steps[..|steps| - 1]).value;
      if e in n.evidence {
        EvidenceIsSupported(lib, hash, fields, steps[..|steps| - 1], e);
      } else {
        var last := steps[|steps| - 1];
        var c := ChooseChunk(hash, n.pages, last.0);
        assert Usable(lib, fields, c, last.1);
        var i :| 0 <= i < |last.1.findings.value| && EvidenceFrom(c, last.1)[i] == e;
        assert Supported(lib, fields, c.text, last.1.findings.value[i]);
      }
    }
  }

  // ---------- a page whose text moves between reads ----------

  lemma StartOfPage(hash: PageHash, p: Page)
    requires |p.content| > CHUNK
    ensures var c := PageChunk(hash, p, 0);
            c.offset == 0 && c.remaining > 0 && c.text != "" && c.url == p.url && c.contentHash == hash(p.content)
  {
  }

  /** Skipping happens: when the text moves between two reads, a page's first recorded chunk
      can be its second. */
  lemma MovedTextSkipsAChunk(lib: Library, hash: PageHash, content: string)
    requires |content| > CHUNK && lib.httpSource("http://a/") && lib.httpSource("http://b/")
    ensures exists steps: seq<(Visit, Reply)> ::
      ExtractAll(lib, hash, {}, steps).Ok?
      && RecordsOf(ExtractAll(lib, hash, {}, steps).value.pages, "http://b/", hash(content)) != []
      && RecordsOf(ExtractAll(lib, hash, {}, steps).value.pages, "http://b/", hash(content))[0].offset == CHUNK
  {
    var a, b := Page("http://a/", "", content), Page("http://b/", "", content);
    assert a.url[7] != b.url[7];
    var one, two := (Visit(a, a, a), NOTHING_FOUND), (Visit(a, b, b), NOTHING_FOUND);
    StartOfPage(hash, a);
    var start, c := PageChunk(hash, a, 0), PageChunk(hash, b, CHUNK);
    var r0 := Record(a.url, hash(content), 0, start.remaining);
    var r1 := Record(b.url, hash(content), CHUNK, c.remaining);
    PlainVisit(lib, hash, BLANK, one.0, start);
    var n1 := Extract(lib, hash, {}, BLANK, one.0, NOTHING_FOUND).value;
    assert [one][..0] == [];
    assert ExtractAll(lib, hash, {}, [one]) == Ok(n1);
    assert n1.pages == [r0];
    SecondChunkFirst(lib, hash, n1, two.0, r0, r1, c);
    var n2 := Extract(lib, hash, {}, n1, two.0, NOTHING_FOUND).value;
    hide Extract;
    assert [one, two][..1] == [one];
    assert ExtractAll(lib, hash, {}, [one, two]) == Ok(n2);
    assert RecordsOf(n2.pages, b.url, hash(content)) == [r1];
  }

  const NOTHING_FOUND := Reply(Some([]), [], true)

  lemma PlainVisit(lib: Library, hash: PageHash, n: Notebook, v: Visit, c: Chunk)
    requires ChooseChunk(hash, n.pages, v) == c && c.text != "" && !Cached(n.pages, c) && lib.httpSource(c.url)
    ensures Extract(lib, hash, {}, n, v, NOTHING_FOUND).Ok?
    ensures Extract(lib, hash, {}, n, v, NOTHING_FOUND).value.pages
            == n.pages + [Record(c.url, c.contentHash, c.offset, c.remaining)]
  {
  }

  lemma SecondChunkFirst(lib: Library, hash: PageHash, n: Notebook, v: Visit, r0: Record, r1: Record, c: Chunk)
    requires n.pages == [r0] && v.first.content == v.second.content && |v.first.content| > CHUNK
    requires r0.url == v.first.url != v.second.url && r0.contentHash == hash(v.first.content)
    requires r0.offset == 0 && r0.remaining > 0 && lib.httpSource(v.second.url)
    requires c == PageChunk(hash, v.second, CHUNK) && r1 == Record(c.url, c.contentHash, CHUNK, c.remaining)
    ensures Extract(lib, hash, {}, n, v, NOTHING_FOUND).Ok?
    ensures RecordsOf(Extract(lib, hash, {}, n, v, NOTHING_FOUND).value.pages, v.second.url, c.contentHash) == [r1]
  {
    assert [r0][..0] == [];
    assert NextOffset([r0], v.first.url, hash(v.first.content)) == CHUNK;
    assert ChooseChunk(hash, [r0], v) == c;
    PlainVisit(lib, hash, n, v, c);
    hide Extract;
    assert ([r0] + [r1])[..1] == [r0];
    assert RecordsOf([r0], v.second.url, c.contentHash) == [];
  }

  // ---------- the loop's notebook as an object ----------

  class Researcher {
    const lib: Library
    const hash: PageHash
    const fields: set<string>
    var evidence: seq<Evidence>
    var pages: seq<Record>
    var modelCalls: nat
    ghost var chunks: seq<Chunk>

    ghost function View(): Notebook
      reads this
    {
      Notebook(evidence, pages, modelCalls, chunks)
    }

    constructor (lib: Library, hash: PageHash, fields: set<string>)
      ensures this.lib == lib && this.hash == hash && this.fields == fields && View() == BLANK
    {
      this.lib, this.hash, this.fields := lib, hash, fields;
      evidence, pages, modelCalls, chunks := [], [], 0, [];
    }

    method UnreadOffset(url: string, contentHash: string) returns (offset: nat)
      ensures offset == NextOffset(pages, url, contentHash)
    {
      offset := 0;
      for i := 0 to |pages|
        invariant offset == NextOffset(pages[..i], url, contentHash)
      {
        assert pages[..i + 1][..i] == pages[..i];
        if OfPage(pages[i], url, contentHash) && pages[i].remaining > 0 {
          offset := Max(offset, pages[i].offset + CHUNK);
        }
      }
      assert pages[..|pages|] == pages;
    }

    method FindCached(c: Chunk) returns (found: bool)
      ensures found <==> Cached(pages, c)
    {
      for i := 0 to |pages|
        invariant forall j :: 0 <= j < i ==> !(OfPage(pages[j], c.url, c.contentHash) && pages[j].offset == c.offset)
      {
        if OfPage(pages[i], c.url, c.contentHash) && pages[i].offset == c.offset { return true; }
      }
      return false;
    }

    /** `made` lists the reads made, which ReadsOf predicts. */
    method ReadPage(v: Visit) returns (page: Chunk, ghost made: seq<Chunk>)
      ensures page == ChooseChunk(hash, pages, v) && made == ReadsOf(hash, pages, v)
    {
      page := PageChunk(hash, v.first, 0);
      made := [page];
      var offset := UnreadOffset(page.url, page.contentHash);
      if offset != 0 {
        var chunk := PageChunk(hash, v.second, offset);
        made := made + [chunk];
        if chunk.contentHash == page.contentHash {
          page := chunk;
        } else {
          page := PageChunk(hash, v.third, 0);
          made := made + [page];
        }
      }
    }

    /** One EXTRACT step; false when it raises. */
    method ExtractStep(v: Visit, reply: Reply) returns (ok: bool)
      requires reply.findings.Some? ==> |reply.ids| >= |reply.findings.value|
      modifies this
      ensures
        match Extract(lib, hash, fields, old(View()), v, reply)
        case Ok(after) => ok && View() == after
        case Err(_) => !ok && evidence == old(evidence) && pages == old(pages)
      ensures
        var c := ChooseChunk(hash, old(pages), v);
        var asked := c.text != "" && !Cached(old(pages), c);
        && (ok <==> c.text != "" && (asked ==> Usable(lib, fields, c, reply)))
        && modelCalls == old(modelCalls) + (if asked then 1 else 0)
        && (if ok && asked && reply.completes then
              && |evidence| == |old(evidence)| + |reply.findings.value| && old(evidence) <= evidence
              && (forall i :: 0 <= i < |reply.findings.value| ==>
                    evidence[|old(evidence)| + i]
                    == Evidence(reply.ids[i], reply.findings.value[i], Source(c.url, c.title, c.contentHash, c.offset)))
              && pages == old(pages) + [Record(c.url, c.contentHash, c.offset, c.remaining)]
            else evidence == old(evidence) && pages == old(pages))
    {
      var page, made := ReadPage(v);
      var cached := FindCached(page);
      if page.text == "" { return false; }
      if cached { return true; }
      modelCalls := modelCalls + 1;
      chunks := chunks + [page];
      var source := Source(page.url, page.title, page.contentHash, page.offset);
      var parsed := ParseExtraction(lib, reply.findings, fields, page.text, source, reply.ids);
      if parsed.Err? { return false; }
      if !reply.completes { return true; }
      assert parsed.value == EvidenceFrom(page, reply);
      evidence := evidence + parsed.value;
      pages := pages + [Record(page.url, page.contentHash, page.offset, page.remaining)];
      return true;
    }

    /** DONE: the final answer rests on the saved evidence alone. */
    method FinishStep(parsed: Option<seq<(string, FieldAnswer)>>) returns (r: Result<map<string, FieldResult>>)
      requires parsed.Some? ==> forall i, j :: 0 <= i < j < |parsed.value| ==> parsed.value[i].0 != parsed.value[j].0
      ensures r.Ok? <==> Accepted(lib, parsed, fields, evidence)
      ensures r.Ok? ==> forall i :: 0 <= i < |parsed.value| ==>
        parsed.value[i].0 in r.value && r.value[parsed.value[i].0] == Resolved(SavedBy(evidence), parsed.value[i].1)
    {
      if evidence == [] { return Err("no collected evidence"); }
      r := ParseSynthesis(lib, parsed, fields, evidence);
    }
  }
}
