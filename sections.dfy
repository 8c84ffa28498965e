/**
 * Document chunks of the two policy-search servers, and the unified server's
 * section chunking: `content.split(/(?=##\s)/g)` cuts the text immediately
 * before every `##` followed by white space (never at position 0), blank
 * sections are dropped, each section is split again before `###` headers,
 * and every piece becomes a chunk `file-section-i-j` holding the trimmed
 * piece.
 */
module Sections {
  import opened Text
  import opened Search

  /** A directory entry: the file name and its text. */
  datatype File = File(name: string, content: string)

  /** A searchable chunk. */
  datatype Doc = Doc(id: string, filename: string, content: string)

  /** `results.map(r => r.content)`: the texts of ranked chunks, in rank order. */
  function Contents(r: seq<Scored<Doc>>): (c: seq<string>)
    ensures |c| == |r| && forall i :: 0 <= i < |r| ==> c[i] == r[i].item.content
  {
    seq(|r|, i requires 0 <= i < |r| => r[i].item.content)
  }

  /** `file.endsWith('.txt') || file.endsWith('.md')`. */
  predicate IsDocFile(name: string) {
    EndsWith(name, ".txt") || EndsWith(name, ".md")
  }

  /** `piece.trim().length > 0`. */
  predicate NonBlank(s: string) {
    |Trim(s)| > 0
  }

  /** `.filter(piece => piece.trim().length > 0)`. */
  function KeepNonBlank(xs: seq<string>): (r: seq<string>)
    ensures forall p :: p in r <==> p in xs && NonBlank(p)
    ensures |r| <= |xs|
  {
    if |xs| == 0 then [] else (if NonBlank(xs[0]) then [xs[0]] else []) + KeepNonBlank(xs[1..])
  }

  /** `n` `#` characters followed by a white-space character start at position `i` (the lookahead `(?=#…#\s)`). */
  predicate HeaderAt(s: string, i: int, n: nat) {
    0 <= i && i + n < |s| && s[i..i + n] == Repeat('#', n) && IsSpace(s[i + n])
  }

  /**
   * The split of `s[p..]` by the lookahead, with the scan at position `q`:
   * a match at `q > p` closes the piece `s[p..q]`; a match at the piece's
   * own start is empty and is skipped, as JavaScript's `split` does.
   */
  function SplitFrom(s: string, n: nat, p: nat, q: nat): (r: seq<string>)
    requires p <= q <= |s|
    ensures |r| >= 1
    decreases |s| - q
  {
    if q == |s| then [s[p..]]
    else if q > p && HeaderAt(s, q, n) then [s[p..q]] + SplitFrom(s, n, q, q + 1)
    else SplitFrom(s, n, p, q + 1)
  }

  /** `s.split(/(?=#…#\s)/g)` with `n` `#` characters. */
  function SplitBeforeHeader(s: string, n: nat): seq<string> {
    SplitFrom(s, n, 0, 0)
  }

  /** The pieces concatenate back to the text: chunking loses nothing before trimming. */
  lemma {:induction false} SplitFromConcat(s: string, n: nat, p: nat, q: nat)
    requires p <= q <= |s|
    ensures Concat(SplitFrom(s, n, p, q)) == s[p..]
    decreases |s| - q
  {
    if q == |s| {
      assert Concat([s[p..]]) == s[p..] + Concat([]);
    } else if q > p && HeaderAt(s, q, n) {
      SplitFromConcat(s, n, q, q + 1);
      var rest := SplitFrom(s, n, q, q + 1);
      assert ([s[p..q]] + rest)[1..] == rest;
      assert s[p..] == s[p..q] + s[q..];
    } else {
      SplitFromConcat(s, n, p, q + 1);
    }
  }

  /** No piece has a header after its first character. */
  predicate NoInnerHeader(pieces: seq<string>, n: nat) {
    forall k, i :: 0 <= k < |pieces| && 1 <= i < |pieces[k]| ==> !HeaderAt(pieces[k], i, n)
  }

  /** Every piece from index `from` on starts with a header. */
  predicate LedByHeader(pieces: seq<string>, n: nat, from: nat) {
    forall k :: from <= k < |pieces| ==> HeaderAt(pieces[k], 0, n)
  }

  /**
   * Every piece starts where the previous one ended: no piece has a header
   * after its first character, and every piece but the first starts with a
   * header of the text.
   */
  lemma {:induction false} SplitFromPieces(s: string, n: nat, p: nat, q: nat)
    requires p <= q <= |s|
    requires forall i :: p < i < q ==> !HeaderAt(s, i, n)
    requires p > 0 ==> HeaderAt(s, p, n)
    ensures NoInnerHeader(SplitFrom(s, n, p, q), n)
    ensures LedByHeader(SplitFrom(s, n, p, q), n, if p > 0 then 0 else 1)
    decreases |s| - q
  {
    var r := SplitFrom(s, n, p, q);
    if q == |s| {
      PieceHeaders(s, n, p, |s|);
      assert s[p..|s|] == s[p..];
      assert r == [s[p..]];
    } else if q > p && HeaderAt(s, q, n) {
      if p > 0 {
        HeadersApart(s, n, p, q);
      }
      PieceHeaders(s, n, p, q);
      SplitFromPieces(s, n, q, q + 1);
      var rest := SplitFrom(s, n, q, q + 1);
      assert r == [s[p..q]] + rest;
      forall k, i | 0 <= k < |r| && 1 <= i
        ensures !HeaderAt(r[k], i, n)
      {
        if k > 0 {
          assert r[k] == rest[k - 1];
        }
      }
      forall k | (if p > 0 then 0 else 1) <= k < |r|
        ensures HeaderAt(r[k], 0, n)
      {
        if k > 0 {
          assert r[k] == rest[k - 1];
        }
      }
    } else {
      SplitFromPieces(s, n, p, q + 1);
      assert r == SplitFrom(s, n, p, q + 1);
    }
  }

  /** Two headers of the same text are more than `n` characters apart. */
  lemma HeadersApart(s: string, n: nat, p: nat, q: nat)
    requires p < q && HeaderAt(s, p, n) && HeaderAt(s, q, n)
    ensures n < q - p
  {
  }

  /** A header inside the piece `s[p..q]` is a header of the text at the shifted position. */
  lemma PieceHeaders(s: string, n: nat, p: nat, q: nat)
    requires p <= q <= |s|
    requires forall i :: p < i < q ==> !HeaderAt(s, i, n)
    requires p > 0 ==> HeaderAt(s, p, n)
    ensures forall i :: 1 <= i ==> !HeaderAt(s[p..q], i, n)
    ensures p > 0 && n < q - p ==> HeaderAt(s[p..q], 0, n)
  {
    var piece := s[p..q];
    forall i | 1 <= i && HeaderAt(piece, i, n)
      ensures false
    {
      SliceOfSlice(s, p, q, i, i + n);
      assert HeaderAt(s, p + i, n);
    }
    if p > 0 && n < q - p {
      SliceOfSlice(s, p, q, 0, n);
    }
  }

  lemma SliceOfSlice(s: string, p: nat, q: nat, i: nat, j: nat)
    requires p <= q <= |s| && i <= j <= q - p
    ensures s[p..q][i..j] == s[p + i..p + j]
  {
    assert |s[p..q][i..j]| == j - i;
    forall t | 0 <= t < j - i
      ensures s[p..q][i..j][t] == s[p + i..p + j][t]
    {
    }
  }

  /** The pieces of a split lose nothing and each holds at most one header, at its start. */
  lemma SplitBeforeHeaderSpec(s: string, n: nat)
    ensures Concat(SplitBeforeHeader(s, n)) == s
    ensures NoInnerHeader(SplitBeforeHeader(s, n), n)
    ensures LedByHeader(SplitBeforeHeader(s, n), n, 1)
  {
    SplitFromConcat(s, n, 0, 0);
    SplitFromPieces(s, n, 0, 0);
  }

  /** A text with no header after its first character is not split at all. */
  lemma {:induction false} SplitFromNoCut(s: string, n: nat, q: nat)
    requires q <= |s|
    requires forall i :: 1 <= i ==> !HeaderAt(s, i, n)
    ensures SplitFrom(s, n, 0, q) == [s]
    decreases |s| - q
  {
    if q < |s| {
      SplitFromNoCut(s, n, q + 1);
    }
  }

  /** A `###` header at position `i` carries a `##` header at `i + 1`. */
  lemma SubheaderHasHeader(s: string, i: int)
    requires HeaderAt(s, i, 3)
    ensures HeaderAt(s, i + 1, 2)
  {
    assert s[i + 1] == '#' && s[i + 2] == '#';
  }

  /**
   * The `###` pass never cuts a section that came out of the `##` pass: a
   * `###` header inside it would carry a `##` header one position later. So
   * every chunk is `file-section-i-0`.
   */
  lemma SubsectionSplitIsIdentity(section: string)
    requires forall i :: 1 <= i ==> !HeaderAt(section, i, 2)
    ensures SplitBeforeHeader(section, 3) == [section]
  {
    forall i | 1 <= i && HeaderAt(section, i, 3)
      ensures false
    {
      SubheaderHasHeader(section, i);
    }
    SplitFromNoCut(section, 3, 0);
  }

  /** `${file}-section-${index}-${subIndex}`. */
  function SectionId(file: string, i: nat, j: nat): string {
    file + "-section-" + NatToString(i) + "-" + NatToString(j)
  }

  /** The non-blank sections of a text. */
  function Sections(content: string): seq<string> {
    KeepNonBlank(SplitBeforeHeader(content, 2))
  }

  /** The chunks of section `i`: its non-blank `###` pieces, trimmed. */
  function SubsectionDocs(file: string, i: nat, section: string): seq<Doc> {
    var subs := KeepNonBlank(SplitBeforeHeader(section, 3));
    seq(|subs|, j requires 0 <= j < |subs| => Doc(SectionId(file, i, j), file, Trim(subs[j])))
  }

  /** The chunks of the first `|secs|` sections, in order. */
  function SectionsDocs(file: string, secs: seq<string>): seq<Doc>
    decreases |secs|
  {
    if |secs| == 0 then []
    else SectionsDocs(file, secs[..|secs| - 1]) + SubsectionDocs(file, |secs| - 1, secs[|secs| - 1])
  }

  lemma SectionsDocsAppend(file: string, secs: seq<string>, i: nat)
    requires i < |secs|
    ensures SectionsDocs(file, secs[..i + 1]) == SectionsDocs(file, secs[..i]) + SubsectionDocs(file, i, secs[i])
  {
    assert secs[..i + 1][..i] == secs[..i];
  }

  /** All chunks of one directory entry; other file types give none. */
  function FileDocs(f: File): seq<Doc> {
    if IsDocFile(f.name) then SectionsDocs(f.name, Sections(f.content)) else []
  }

  /** The chunks of a directory listing, file by file. */
  function AllDocs(files: seq<File>): seq<Doc>
    decreases |files|
  {
    if |files| == 0 then [] else AllDocs(files[..|files| - 1]) + FileDocs(files[|files| - 1])
  }

  /** A non-blank `##` section yields exactly one chunk: `file-section-i-0` with the trimmed section. */
  lemma SubsectionDocsSingle(file: string, i: nat, section: string)
    requires forall t :: 1 <= t ==> !HeaderAt(section, t, 2)
    requires NonBlank(section)
    ensures SubsectionDocs(file, i, section) == [Doc(SectionId(file, i, 0), file, Trim(section))]
  {
    SubsectionSplitIsIdentity(section);
    assert KeepNonBlank([section]) == [section] + KeepNonBlank([]);
  }

  /** Sections of a file: the `k`-th chunk is `file-section-k-0`, holding the `k`-th non-blank section trimmed. */
  lemma {:induction false} SectionsDocsSpec(file: string, secs: seq<string>)
    requires forall s :: s in secs ==> NonBlank(s) && forall t :: 1 <= t ==> !HeaderAt(s, t, 2)
    ensures |SectionsDocs(file, secs)| == |secs|
    ensures forall k :: 0 <= k < |secs| ==>
      SectionsDocs(file, secs)[k] == Doc(SectionId(file, k, 0), file, Trim(secs[k]))
    decreases |secs|
  {
    if |secs| > 0 {
      var init := secs[..|secs| - 1];
      var last := secs[|secs| - 1];
      assert forall s :: s in init ==> s in secs;
      SectionsDocsSpec(file, init);
      assert last in secs;
      SubsectionDocsSingle(file, |secs| - 1, last);
      var r := SectionsDocs(file, secs);
      var head := SectionsDocs(file, init);
      assert r == head + [Doc(SectionId(file, |secs| - 1, 0), file, Trim(last))];
      forall k | 0 <= k < |secs|
        ensures r[k] == Doc(SectionId(file, k, 0), file, Trim(secs[k]))
      {
        if k < |init| {
          assert r[k] == head[k];
          assert secs[k] == init[k];
        }
      }
    }
  }

  /**
   * A document file gives one chunk per non-blank `##` section, in order, with
   * id `file-section-k-0` and the trimmed section as content; every chunk's
   * content is non-empty and names its file.
   */
  lemma FileDocsSpec(f: File)
    requires IsDocFile(f.name)
    ensures var secs := Sections(f.content);
      && |FileDocs(f)| == |secs|
      && forall k :: 0 <= k < |secs| ==>
           FileDocs(f)[k] == Doc(SectionId(f.name, k, 0), f.name, Trim(secs[k])) && |FileDocs(f)[k].content| > 0
  {
    var secs := Sections(f.content);
    SplitBeforeHeaderSpec(f.content, 2);
    var pieces := SplitBeforeHeader(f.content, 2);
    forall s | s in secs
      ensures NonBlank(s) && forall t :: 1 <= t ==> !HeaderAt(s, t, 2)
    {
      var k :| 0 <= k < |pieces| && pieces[k] == s;
    }
    SectionsDocsSpec(f.name, secs);
    forall k | 0 <= k < |secs|
      ensures |Trim(secs[k])| > 0
    {
      assert secs[k] in secs;
    }
  }

  /** Only `.txt` and `.md` files contribute chunks, and every chunk names the file it came from. */
  lemma {:induction false} AllDocsFromDocFiles(files: seq<File>)
    ensures forall d :: d in AllDocs(files) ==> IsDocFile(d.filename) && exists f :: f in files && f.name == d.filename
    decreases |files|
  {
    if |files| > 0 {
      var init := files[..|files| - 1];
      var last := files[|files| - 1];
      AllDocsFromDocFiles(init);
      forall d | d in FileDocs(last)
        ensures IsDocFile(d.filename) && d.filename == last.name
      {
        FileDocsSpec(last);
        var k :| 0 <= k < |FileDocs(last)| && FileDocs(last)[k] == d;
      }
      forall d | d in AllDocs(init)
        ensures exists f :: f in files && f.name == d.filename
      {
        var f :| f in init && f.name == d.filename;
        assert f in files;
      }
      assert last in files;
      assert AllDocs(files) == AllDocs(init) + FileDocs(last);
    }
  }

  /** The text `"a\n### b"` is cut after the first `#` of its `###` header. */
  lemma SubheaderCutAfterFirstHash()
    ensures SplitBeforeHeader("a\n### b", 2) == ["a\n#", "## b"]
  {
    var s := "a\n### b";
    assert s[3..5] == Repeat('#', 2);
    assert s[1] != '#' && s[4] != ' ' && s[5] != '#';
    assert !HeaderAt(s, 1, 2) && !HeaderAt(s, 2, 2) && HeaderAt(s, 3, 2);
    assert !HeaderAt(s, 4, 2) && !HeaderAt(s, 5, 2) && !HeaderAt(s, 6, 2);
    assert SplitFrom(s, 2, 3, 6) == SplitFrom(s, 2, 3, 7) == [s[3..]];
    assert SplitFrom(s, 2, 3, 4) == SplitFrom(s, 2, 3, 5) == SplitFrom(s, 2, 3, 6);
    assert SplitFrom(s, 2, 0, 0) == SplitFrom(s, 2, 0, 1) == SplitFrom(s, 2, 0, 2) == SplitFrom(s, 2, 0, 3);
    assert SplitFrom(s, 2, 0, 3) == [s[..3]] + SplitFrom(s, 2, 3, 4);
    assert s[..3] == "a\n#" && s[3..] == "## b";
  }

  /** The server's chunk store, reloaded from a directory listing. */
  class DocumentStore {
    var documents: seq<Doc>

    constructor ()
      ensures documents == []
    {
      documents := [];
    }

    /** `loadDocuments`: resets the store and pushes the chunks of every document file, section by section. */
    method LoadDocuments(files: seq<File>)
      modifies this
      ensures documents == AllDocs(files)
    {
      documents := [];
      var k := 0;
      while k < |files|
        invariant 0 <= k <= |files|
        invariant documents == AllDocs(files[..k])
      {
        assert files[..k + 1][..k] == files[..k];
        PushFile(files[k]);
        k := k + 1;
      }
      assert files[..k] == files;
    }

    /** The body of the per-file loop: the chunks of one file pushed section by section. */
    method PushFile(f: File)
      modifies this
      ensures documents == old(documents) + FileDocs(f)
    {
      var chunks: seq<Doc> := [];
      if IsDocFile(f.name) {
        var secs := Sections(f.content);
        var i := 0;
        while i < |secs|
          invariant 0 <= i <= |secs|
          invariant chunks == SectionsDocs(f.name, secs[..i])
          invariant documents == old(documents)
        {
          SectionsDocsAppend(f.name, secs, i);
          chunks := chunks + SubsectionDocs(f.name, i, secs[i]);
          i := i + 1;
        }
        assert secs[..i] == secs;
      }
      assert chunks == FileDocs(f);
      documents := documents + chunks;
    }
  }
}
