/**
 * The policy-search server: every `.txt`/`.md` file is cut into paragraphs
 * at blank lines, and a query is answered with the three paragraphs that
 * hold the most keyword occurrences, joined, with their source files.
 */
module ProcurementRag {
  import opened Text
  import opened Search
  import opened Sections

  /** The non-blank paragraphs of a text: `content.split('\n\n').filter(chunk => chunk.trim().length > 0)`. */
  function Paragraphs(content: string): seq<string> {
    KeepNonBlank(SplitOn(content, "\n\n"))
  }

  /** `${file}-chunk-${index}`. */
  function ChunkId(file: string, i: nat): string {
    file + "-chunk-" + NatToString(i)
  }

  /** The chunks of one directory entry: the trimmed paragraphs of a document file, none for any other file. */
  function FileChunks(f: File): seq<Doc> {
    if IsDocFile(f.name) then
      var ps := Paragraphs(f.content);
      seq(|ps|, i requires 0 <= i < |ps| => Doc(ChunkId(f.name, i), f.name, Trim(ps[i])))
    else []
  }

  /** The chunks of a directory listing, file by file. */
  function AllChunks(files: seq<File>): seq<Doc>
    decreases |files|
  {
    if |files| == 0 then [] else AllChunks(files[..|files| - 1]) + FileChunks(files[|files| - 1])
  }

  /** A part of a text contains only what the text contains. */
  lemma SliceContains(s: string, i: nat, j: nat, sep: string)
    requires i <= j <= |s| && Contains(s[i..j], sep)
    ensures Contains(s, sep)
  {
    assert OccursAt(s, s[i..j], i);
    ContainsIff(s, s[i..j]);
    ContainsTransitive(s, s[i..j], sep);
  }

  /** Chunk ids of one file differ from one another. */
  lemma ChunkIdInjective(file: string, i: nat, j: nat)
    requires ChunkId(file, i) == ChunkId(file, j)
    ensures i == j
  {
    var prefix := file + "-chunk-";
    assert ChunkId(file, i)[|prefix|..] == NatToString(i);
    assert ChunkId(file, j)[|prefix|..] == NatToString(j);
    NatToStringInjective(i, j);
  }

  /**
   * The chunks of a document file carry distinct ids `file-chunk-i` numbered
   * among the kept paragraphs; each holds text that is non-empty, has no
   * blank-line break and no white space at either end, and names its file.
   * Other files give no chunks.
   */
  lemma FileChunksSpec(f: File)
    ensures !IsDocFile(f.name) ==> FileChunks(f) == []
    ensures var cs := FileChunks(f);
      && (forall i :: 0 <= i < |cs| ==>
            && cs[i].id == ChunkId(f.name, i) && cs[i].filename == f.name
            && |cs[i].content| > 0 && !Contains(cs[i].content, "\n\n")
            && !IsSpace(cs[i].content[0]) && !IsSpace(cs[i].content[|cs[i].content| - 1]))
      && (forall i, j :: 0 <= i < j < |cs| ==> cs[i].id != cs[j].id)
  {
    var cs := FileChunks(f);
    if IsDocFile(f.name) {
      var ps := Paragraphs(f.content);
      SplitPiecesFree(f.content, "\n\n");
      forall i | 0 <= i < |cs|
        ensures |cs[i].content| > 0 && !Contains(cs[i].content, "\n\n")
        ensures !IsSpace(cs[i].content[0]) && !IsSpace(cs[i].content[|cs[i].content| - 1])
      {
        var p := ps[i];
        assert p in ps;
        TrimIsSlice(p);
        var a, b :| 0 <= a <= b <= |p| && Trim(p) == p[a..b];
        if Contains(Trim(p), "\n\n") {
          SliceContains(p, a, b, "\n\n");
        }
        TrimEnds(p);
      }
      forall i, j | 0 <= i < j < |cs|
        ensures cs[i].id != cs[j].id
      {
        if cs[i].id == cs[j].id {
          ChunkIdInjective(f.name, i, j);
        }
      }
    }
  }

  /** A non-empty trimmed text starts and ends with a character that is not white space. */
  lemma TrimEnds(s: string)
    requires |Trim(s)| > 0
    ensures !IsSpace(Trim(s)[0]) && !IsSpace(Trim(s)[|Trim(s)| - 1])
  {
    var t := TrimStart(s);
    TrimStartSpec(s);
    TrimEndSpec(t);
  }

  /** Every chunk of a listing comes from a document file of that listing. */
  lemma {:induction false} AllChunksFromDocFiles(files: seq<File>)
    ensures forall d :: d in AllChunks(files) ==> IsDocFile(d.filename) && exists f :: f in files && f.name == d.filename
    decreases |files|
  {
    if |files| > 0 {
      var init := files[..|files| - 1];
      var last := files[|files| - 1];
      AllChunksFromDocFiles(init);
      assert last in files;
      forall d | d in AllChunks(init)
        ensures exists f :: f in files && f.name == d.filename
      {
        var f :| f in init && f.name == d.filename;
        assert f in files;
      }
      forall d | d in FileChunks(last)
        ensures IsDocFile(d.filename) && d.filename == last.name
      {
        FileChunksSpec(last);
        var k :| 0 <= k < |FileChunks(last)| && FileChunks(last)[k] == d;
      }
      assert AllChunks(files) == AllChunks(init) + FileChunks(last);
    }
  }

  // ---------------------------------------------------------------------------
  // searchDocuments
  // ---------------------------------------------------------------------------

  /** The total number of keyword occurrences in the lower-cased chunk. */
  function ChunkScore(content: string, kws: seq<string>): nat
    requires AllNonEmpty(kws)
    decreases |kws|
  {
    if |kws| == 0 then 0
    else ChunkScore(content, kws[..|kws| - 1]) + CountOccurrences(Lower(content), kws[|kws| - 1])
  }

  /** The per-chunk `forEach` of `searchDocuments`. */
  method ScoreChunk(content: string, kws: seq<string>) returns (score: nat)
    requires AllNonEmpty(kws)
    ensures score == ChunkScore(content, kws)
  {
    var contentLower := Lower(content);
    score := 0;
    var j := 0;
    while j < |kws|
      invariant 0 <= j <= |kws|
      invariant score == ChunkScore(content, kws[..j])
    {
      assert kws[..j + 1][..j] == kws[..j];
      score := score + CountOccurrences(contentLower, kws[j]);
      j := j + 1;
    }
    assert kws[..j] == kws;
  }

  /** A chunk scores above zero exactly when its lower-cased text contains one of the keywords. */
  lemma {:induction false} ChunkScorePositive(content: string, kws: seq<string>)
    requires AllNonEmpty(kws)
    ensures ChunkScore(content, kws) > 0 <==> exists j :: 0 <= j < |kws| && Contains(Lower(content), kws[j])
    decreases |kws|
  {
    if |kws| > 0 {
      var init := kws[..|kws| - 1];
      ChunkScorePositive(content, init);
      CountPositiveIff(Lower(content), kws[|kws| - 1]);
      if exists j :: 0 <= j < |kws| && Contains(Lower(content), kws[j]) {
        var j :| 0 <= j < |kws| && Contains(Lower(content), kws[j]);
        if j < |init| {
          assert init[j] == kws[j];
        }
      }
      if exists j :: 0 <= j < |init| && Contains(Lower(content), init[j]) {
        var j :| 0 <= j < |init| && Contains(Lower(content), init[j]);
        assert kws[j] == init[j];
      }
    }
  }

  function ScoreChunks(docs: seq<Doc>, kws: seq<string>): (r: seq<Scored<Doc>>)
    requires AllNonEmpty(kws)
    ensures |r| == |docs|
    ensures forall i :: 0 <= i < |docs| ==> r[i] == Scored(docs[i], ChunkScore(docs[i].content, kws))
  {
    seq(|docs|, i requires 0 <= i < |docs| => Scored(docs[i], ChunkScore(docs[i].content, kws)))
  }

  /** `searchDocuments(query)`: the three chunks with the most occurrences. */
  function SearchDocuments(docs: seq<Doc>, query: string): seq<Scored<Doc>> {
    KeywordsNonEmpty(query);
    TopK(ScoreChunks(docs, Keywords(query)), 3)
  }

  /**
   * At most three chunks, best first, each a stored chunk with its own
   * occurrence count, each containing a keyword; a scoring chunk is left out
   * only behind three that score at least as well.
   */
  lemma SearchDocumentsSpec(docs: seq<Doc>, query: string)
    ensures var r := SearchDocuments(docs, query); var kws := Keywords(query);
      && AllNonEmpty(kws)
      && |r| <= 3 && SortedDesc(r)
      && (forall e :: e in r ==>
            e.item in docs && e.score == ChunkScore(e.item.content, kws)
            && exists j :: 0 <= j < |kws| && Contains(Lower(e.item.content), kws[j]))
      && (|kws| == 0 ==> r == [])
  {
    var kws := Keywords(query);
    KeywordsNonEmpty(query);
    var xs := ScoreChunks(docs, kws);
    var r := SearchDocuments(docs, query);
    TopKSpec(xs, 3);
    forall e | e in r
      ensures e.item in docs && e.score == ChunkScore(e.item.content, kws)
      ensures exists j :: 0 <= j < |kws| && Contains(Lower(e.item.content), kws[j])
    {
      assert e in multiset(xs);
      var i :| 0 <= i < |xs| && xs[i] == e;
      ChunkScorePositive(e.item.content, kws);
    }
    if |kws| == 0 {
      TopKNoneScored(xs, 3);
    }
  }

  /** A scoring chunk is left out only behind three chunks that score at least as well. */
  lemma SearchDocumentsDominates(docs: seq<Doc>, query: string, d: Doc)
    requires d in docs
    ensures var r := SearchDocuments(docs, query); var kws := Keywords(query);
      && AllNonEmpty(kws)
      && (ChunkScore(d.content, kws) > 0 && Scored(d, ChunkScore(d.content, kws)) !in r ==>
            |r| == 3 && forall e :: e in r ==> e.score >= ChunkScore(d.content, kws))
  {
    var kws := Keywords(query);
    KeywordsNonEmpty(query);
    var xs := ScoreChunks(docs, kws);
    var i :| 0 <= i < |docs| && docs[i] == d;
    assert xs[i] == Scored(d, ChunkScore(d.content, kws));
    if ChunkScore(d.content, kws) > 0 && xs[i] !in SearchDocuments(docs, query) {
      TopKDominates(xs, 3, xs[i]);
    }
  }

  // ---------------------------------------------------------------------------
  // /search-policies
  // ---------------------------------------------------------------------------

  /** The three answers: 400 without a query, `found: false`, or the combined content and its files. */
  datatype PolicyAnswer =
    | QueryRequired
    | NotFound(message: string)
    | Found(content: string, sources: seq<string>)

  const NoPolicies: string := "No relevant policies found for this query."

  function Filenames(r: seq<Scored<Doc>>): (c: seq<string>)
    ensures |c| == |r| && forall i :: 0 <= i < |r| ==> c[i] == r[i].item.filename
  {
    seq(|r|, i requires 0 <= i < |r| => r[i].item.filename)
  }

  /** `/search-policies` with `req.body.query`. */
  function SearchPolicies(docs: seq<Doc>, query: Option<string>): PolicyAnswer {
    if !Truthy(query) then QueryRequired
    else
      var results := SearchDocuments(docs, query.value);
      if |results| == 0 then NotFound(NoPolicies)
      else Found(Join(Contents(results), "\n\n"), Dedup(Filenames(results)))
  }

  /**
   * A missing or empty query gives 400; a query no chunk matches gives
   * `found: false`; otherwise the ranked chunks joined by blank lines, and
   * the files they came from.
   */
  lemma SearchPoliciesSpec(docs: seq<Doc>, query: Option<string>)
    ensures var a := SearchPolicies(docs, query);
      && (a.QueryRequired? <==> !Truthy(query))
      && (a.NotFound? <==> Truthy(query) && SearchDocuments(docs, query.value) == [])
      && (a.NotFound? ==> a.message == NoPolicies)
      && (a.Found? ==>
            && a.content == Join(Contents(SearchDocuments(docs, query.value)), "\n\n")
            && a.sources == Dedup(Filenames(SearchDocuments(docs, query.value))))
  {
  }

  /** The sources list every file of the ranked chunks once, and only files of stored chunks. */
  lemma SourcesSpec(docs: seq<Doc>, query: string)
    ensures var results := SearchDocuments(docs, query); var sources := Dedup(Filenames(results));
      && NoDuplicates(sources)
      && (forall x :: x in sources <==> exists i :: 0 <= i < |results| && results[i].item.filename == x)
      && (forall x :: x in sources ==> exists d :: d in docs && d.filename == x)
  {
    var results := SearchDocuments(docs, query);
    var names := Filenames(results);
    SearchDocumentsSpec(docs, query);
    forall x
      ensures x in names <==> exists i :: 0 <= i < |results| && results[i].item.filename == x
    {
      if x in names {
        var i :| 0 <= i < |names| && names[i] == x;
      }
    }
    forall x | x in names
      ensures exists d :: d in docs && d.filename == x
    {
      var i :| 0 <= i < |names| && names[i] == x;
      assert results[i] in results;
    }
  }

  /** The server's chunk store. */
  class RagStore {
    var documents: seq<Doc>

    constructor ()
      ensures documents == []
    {
      documents := [];
    }

    /** `loadDocuments`: resets the store and pushes the paragraphs of every document file. */
    method LoadDocuments(files: seq<File>)
      modifies this
      ensures documents == AllChunks(files)
    {
      documents := [];
      var k := 0;
      while k < |files|
        invariant 0 <= k <= |files|
        invariant documents == AllChunks(files[..k])
      {
        assert files[..k + 1][..k] == files[..k];
        PushFile(files[k]);
        k := k + 1;
      }
      assert files[..k] == files;
    }

    /** The body of the per-file loop: one chunk pushed per kept paragraph. */
    method PushFile(f: File)
      modifies this
      ensures documents == old(documents) + FileChunks(f)
    {
      var chunks: seq<Doc> := [];
      if IsDocFile(f.name) {
        var ps := Paragraphs(f.content);
        var i := 0;
        while i < |ps|
          invariant 0 <= i <= |ps|
          invariant documents == old(documents)
          invariant |chunks| == i
          invariant forall j :: 0 <= j < i ==> chunks[j] == Doc(ChunkId(f.name, j), f.name, Trim(ps[j]))
        {
          chunks := chunks + [Doc(ChunkId(f.name, i), f.name, Trim(ps[i]))];
          i := i + 1;
        }
      }
      assert chunks == FileChunks(f);
      documents := documents + chunks;
    }
  }
}
