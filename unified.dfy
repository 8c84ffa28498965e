/**
 * The unified tool server: employee lookup, policy search over section
 * chunks, vendor search and procurement-request validation, each answering
 * with a single `{ toolCallId, result }` entry. Arguments may arrive at the
 * top level of the body, under `parameters`, or inside the first tool call
 * of the message.
 */
module UnifiedServer {
  import opened Text
  import opened Search
  import opened Employees
  import opened Sections

  // ---------------------------------------------------------------------------
  // Request arguments
  // ---------------------------------------------------------------------------

  /** The string-valued members of an arguments object; a missing key is `undefined`. */
  type Args = map<string, string>

  datatype ToolCall = ToolCall(id: Option<string>, arguments: Option<Args>)

  datatype ToolMessage = ToolMessage(toolCalls: seq<ToolCall>, toolCallList: seq<ToolCall>)

  /** A request body: its own members, `parameters` and `message`. */
  datatype ToolRequest = ToolRequest(top: Args, parameters: Option<Args>, message: Option<ToolMessage>)

  /** The answer: an HTTP status and the one `{ toolCallId, result }` entry. */
  datatype ToolResponse = ToolResponse(status: int, toolCallId: string, result: string)

  /** `args?.[key]`. */
  function Get(args: Option<Args>, key: string): Option<string> {
    if args.Some? && key in args.value then Some(args.value[key]) else None
  }

  /** `calls?.[0]?.function?.arguments?.[key]`. */
  function FirstCallArg(calls: seq<ToolCall>, key: string): Option<string> {
    if |calls| > 0 then Get(calls[0].arguments, key) else None
  }

  function ToolCallsArg(r: ToolRequest, key: string): Option<string> {
    if r.message.Some? then FirstCallArg(r.message.value.toolCalls, key) else None
  }

  function ToolCallListArg(r: ToolRequest, key: string): Option<string> {
    if r.message.Some? then FirstCallArg(r.message.value.toolCallList, key) else None
  }

  /** The places an argument is looked for, in order; the vendor search does not look in `toolCalls`. */
  function ArgSources(r: ToolRequest, key: string, viaToolCalls: bool): (src: seq<Option<string>>)
    ensures |src| == if viaToolCalls then 4 else 3
    ensures src[0] == Get(Some(r.top), key) && src[1] == Get(r.parameters, key)
    ensures viaToolCalls ==> src[2] == ToolCallsArg(r, key)
    ensures src[|src| - 1] == ToolCallListArg(r, key)
  {
    [Get(Some(r.top), key), Get(r.parameters, key)]
      + (if viaToolCalls then [ToolCallsArg(r, key)] else [])
      + [ToolCallListArg(r, key)]
  }

  /** `body[key] || body.parameters?.[key] || …`: the first truthy place wins. */
  function Argument(r: ToolRequest, key: string, viaToolCalls: bool): Option<string> {
    OrChain(ArgSources(r, key, viaToolCalls))
  }

  /** `message?.toolCallList?.[0]?.id || 'unknown'`. */
  function ToolCallId(r: ToolRequest): string {
    var id := if r.message.Some? && |r.message.value.toolCallList| > 0 then r.message.value.toolCallList[0].id else None;
    OrElse(id, "unknown")
  }

  /**
   * An argument is present exactly when one of its places holds a non-empty
   * string, and then it is the value of the first such place: an empty
   * string falls through to the next place.
   */
  lemma ArgumentSpec(r: ToolRequest, key: string, viaToolCalls: bool)
    ensures var src := ArgSources(r, key, viaToolCalls);
      && (Truthy(Argument(r, key, viaToolCalls)) <==> exists i :: 0 <= i < |src| && Truthy(src[i]))
      && forall k :: 0 <= k < |src| && Truthy(src[k]) && (forall i :: 0 <= i < k ==> !Truthy(src[i])) ==>
           Argument(r, key, viaToolCalls) == src[k]
  {
    var src := ArgSources(r, key, viaToolCalls);
    forall k | 0 <= k < |src| && Truthy(src[k]) && (forall i :: 0 <= i < k ==> !Truthy(src[i]))
      ensures Argument(r, key, viaToolCalls) == src[k]
    {
      OrChainFirstTruthy(src, k);
    }
    if exists i :: 0 <= i < |src| && Truthy(src[i]) {
      var k := FirstTruthyIndex(src);
      OrChainFirstTruthy(src, k);
    } else {
      OrChainAllFalsy(src);
    }
  }

  /** The index of the first truthy element. */
  lemma FirstTruthyIndex(src: seq<Option<string>>) returns (k: nat)
    requires exists i :: 0 <= i < |src| && Truthy(src[i])
    ensures k < |src| && Truthy(src[k]) && forall i :: 0 <= i < k ==> !Truthy(src[i])
  {
    k := 0;
    while !Truthy(src[k])
      invariant k < |src| && forall i :: 0 <= i < k ==> !Truthy(src[i])
      decreases |src| - k
    {
      k := k + 1;
    }
  }

  /** A query sent only in `message.toolCalls` reaches the policy search but not the vendor search. */
  lemma VendorSearchSkipsToolCalls(r: ToolRequest)
    requires !Truthy(Get(Some(r.top), "query")) && !Truthy(Get(r.parameters, "query"))
    requires !Truthy(ToolCallListArg(r, "query")) && Truthy(ToolCallsArg(r, "query"))
    ensures Argument(r, "query", true) == ToolCallsArg(r, "query")
    ensures !Truthy(Argument(r, "query", false))
  {
    ArgumentSpec(r, "query", true);
    ArgumentSpec(r, "query", false);
    assert Truthy(ArgSources(r, "query", true)[2]);
  }

  // ---------------------------------------------------------------------------
  // /lookup-employee
  // ---------------------------------------------------------------------------

  function EmployeeFoundText(e: Employee): string {
    "Employee found: " + EmployeeDetails(e)
  }

  function EmployeeDetails(e: Employee): string {
    e.firstName + " " + e.lastName + ", " + e.title + " in " + e.department
      + ". Team: " + e.team + ". " + e.notes + " Communication style: " + e.preferences.communicationStyle + "."
  }

  /** Only the found text starts with "Employee found: ". */
  lemma FoundTextPrefix(e: Employee, name: string)
    ensures StartsWith(EmployeeFoundText(e), "Employee found: ")
    ensures !StartsWith(EmployeeMissingText(name), "Employee found: ")
  {
    AffixesOfConcat("Employee found: ", EmployeeDetails(e));
    assert EmployeeMissingText(name)[0] == 'I';
  }

  function EmployeeMissingText(name: string): string {
    "I don't have information for \"" + name + "\" in our employee directory."
  }

  const NameRequired: string := "Error: Name parameter is required"

  /** `/lookup-employee`. */
  function LookupEmployee(emps: seq<Employee>, r: ToolRequest): ToolResponse {
    var name := Argument(r, "name", true);
    if !Truthy(name) then ToolResponse(400, ToolCallId(r), NameRequired)
    else
      var k := FindEmployeeByName(emps, name.value);
      if k.None? then ToolResponse(200, ToolCallId(r), EmployeeMissingText(name.value))
      else
        FindSpec(emps, name.value);
        ToolResponse(200, ToolCallId(r), EmployeeFoundText(emps[k.value]))
  }

  /**
   * The lookup fails with 400 exactly when no place holds a name; otherwise
   * it answers with the one-line description of the employee the name search
   * finds, which starts with "Employee found: ", or with the not-found
   * sentence, which does not.
   */
  lemma LookupEmployeeSpec(emps: seq<Employee>, r: ToolRequest)
    ensures var resp := LookupEmployee(emps, r); var src := ArgSources(r, "name", true);
      && resp.toolCallId == ToolCallId(r)
      && (resp.status == 400 <==> forall i :: 0 <= i < |src| ==> !Truthy(src[i]))
      && (resp.status == 400 ==> resp.result == NameRequired)
      && (resp.status != 400 ==>
            var k := FindEmployeeByName(emps, Argument(r, "name", true).value);
            && (k.Some? ==> k.value < |emps| && resp.result == EmployeeFoundText(emps[k.value]))
            && (StartsWith(resp.result, "Employee found: ") <==> k.Some?))
  {
    ArgumentSpec(r, "name", true);
    var name := Argument(r, "name", true);
    if Truthy(name) {
      var k := FindEmployeeByName(emps, name.value);
      FindSpec(emps, name.value);
      if k.Some? {
        FoundTextPrefix(emps[k.value], name.value);
      } else if |emps| > 0 {
        FoundTextPrefix(emps[0], name.value);
      } else {
        AffixesOfConcat("I", EmployeeMissingText(name.value)[1..]);
        assert EmployeeMissingText(name.value)[0] == 'I';
      }
    }
  }

  // ---------------------------------------------------------------------------
  // searchDocuments
  // ---------------------------------------------------------------------------

  /** `content.split('\n')[0].toLowerCase()`. */
  function FirstLine(content: string): string {
    Lower(SplitOn(content, "\n")[0])
  }

  /** What one keyword adds: its occurrences, 5 if the first line has it, 10 more if that line is a `##` header. */
  function KeywordPoints(contentLower: string, firstLine: string, kw: string): nat
    requires |kw| > 0
  {
    CountOccurrences(contentLower, kw)
      + (if Contains(firstLine, kw) then 5 else 0)
      + (if StartsWith(firstLine, "##") && Contains(firstLine, kw) then 10 else 0)
  }

  /** The points of the keywords, summed. */
  function KeywordsTotal(contentLower: string, firstLine: string, kws: seq<string>): nat
    requires AllNonEmpty(kws)
    decreases |kws|
  {
    if |kws| == 0 then 0
    else KeywordsTotal(contentLower, firstLine, kws[..|kws| - 1]) + KeywordPoints(contentLower, firstLine, kws[|kws| - 1])
  }

  /**
   * Twice a chunk's score: the source halves the total of a chunk shorter
   * than 100 characters; doubling every score instead keeps the order and
   * stays in integers.
   */
  function DocScore2(content: string, kws: seq<string>): nat
    requires AllNonEmpty(kws)
  {
    var total := KeywordsTotal(Lower(content), FirstLine(content), kws);
    if |content| < 100 then total else 2 * total
  }

  /** The per-chunk loop of `searchDocuments`, in doubled units. */
  method ScoreDocument(content: string, kws: seq<string>) returns (score2: nat)
    requires AllNonEmpty(kws)
    ensures score2 == DocScore2(content, kws)
  {
    var contentLower := Lower(content);
    var firstLine := FirstLine(content);
    var score := 0;
    var j := 0;
    while j < |kws|
      invariant 0 <= j <= |kws|
      invariant score == KeywordsTotal(contentLower, firstLine, kws[..j])
    {
      var kw := kws[j];
      assert kws[..j + 1][..j] == kws[..j];
      score := score + CountOccurrences(contentLower, kw);
      if Contains(firstLine, kw) {
        score := score + 5;
      }
      if StartsWith(firstLine, "##") && Contains(firstLine, kw) {
        score := score + 10;
      }
      j := j + 1;
    }
    assert kws[..j] == kws;
    score2 := if |content| < 100 then score else 2 * score;
  }

  /** The lower-cased first line is a prefix of the lower-cased text, so what it contains the text contains. */
  lemma FirstLineInContent(content: string, kw: string)
    requires Contains(FirstLine(content), kw)
    ensures Contains(Lower(content), kw)
  {
    var piece := SplitOn(content, "\n")[0];
    SplitFirstIsPrefix(content, "\n");
    assert Lower(content)[..|piece|] == Lower(piece);
    assert Contains(Lower(content), Lower(piece));
    ContainsTransitive(Lower(content), Lower(piece), kw);
  }

  /** A keyword earns points exactly when the lower-cased text contains it. */
  lemma KeywordPointsPositive(content: string, kw: string)
    requires |kw| > 0
    ensures KeywordPoints(Lower(content), FirstLine(content), kw) > 0 <==> Contains(Lower(content), kw)
  {
    CountPositiveIff(Lower(content), kw);
    if Contains(FirstLine(content), kw) {
      FirstLineInContent(content, kw);
    }
  }

  lemma {:induction false} KeywordsTotalPositive(content: string, kws: seq<string>)
    requires AllNonEmpty(kws)
    ensures KeywordsTotal(Lower(content), FirstLine(content), kws) > 0
      <==> exists j :: 0 <= j < |kws| && Contains(Lower(content), kws[j])
    decreases |kws|
  {
    if |kws| > 0 {
      var init := kws[..|kws| - 1];
      KeywordsTotalPositive(content, init);
      KeywordPointsPositive(content, kws[|kws| - 1]);
      if exists j :: 0 <= j < |kws| && Contains(Lower(content), kws[j]) {
        var j :| 0 <= j < |kws| && Contains(Lower(content), kws[j]);
        if j < |init| {
          assert init[j] == kws[j];
        }
      }
      if exists j :: 0 <= j < |init| && Contains(Lower(content), init[j]) {
        var j :| 0 <= j < |init| && Contains(Lower(content), init[j]);
        assert kws[j] == init[j];
      }
    }
  }

  /** A chunk scores above zero exactly when its lower-cased text contains one of the keywords. */
  lemma DocScorePositive(content: string, kws: seq<string>)
    requires AllNonEmpty(kws)
    ensures DocScore2(content, kws) > 0 <==> exists j :: 0 <= j < |kws| && Contains(Lower(content), kws[j])
  {
    KeywordsTotalPositive(content, kws);
  }

  function ScoreDocs(docs: seq<Doc>, kws: seq<string>): (r: seq<Scored<Doc>>)
    requires AllNonEmpty(kws)
    ensures |r| == |docs|
    ensures forall i :: 0 <= i < |docs| ==> r[i] == Scored(docs[i], DocScore2(docs[i].content, kws))
  {
    seq(|docs|, i requires 0 <= i < |docs| => Scored(docs[i], DocScore2(docs[i].content, kws)))
  }

  /** `searchDocuments(query)`: the three best-scoring chunks. */
  function SearchDocuments(docs: seq<Doc>, query: string): seq<Scored<Doc>> {
    KeywordsNonEmpty(query);
    TopK(ScoreDocs(docs, Keywords(query)), 3)
  }

  /**
   * At most three chunks, best first, each a stored chunk with its own score,
   * each containing a query keyword; a query without a word longer than three
   * characters finds nothing.
   */
  lemma SearchDocumentsSpec(docs: seq<Doc>, query: string)
    ensures var r := SearchDocuments(docs, query); var kws := Keywords(query);
      && AllNonEmpty(kws)
      && |r| <= 3 && SortedDesc(r)
      && (forall e :: e in r ==>
            e.item in docs && e.score == DocScore2(e.item.content, kws)
            && exists j :: 0 <= j < |kws| && Contains(Lower(e.item.content), kws[j]))
      && (|kws| == 0 ==> r == [])
  {
    var kws := Keywords(query);
    KeywordsNonEmpty(query);
    var xs := ScoreDocs(docs, kws);
    var r := SearchDocuments(docs, query);
    TopKSpec(xs, 3);
    forall e | e in r
      ensures e.item in docs && e.score == DocScore2(e.item.content, kws)
      ensures exists j :: 0 <= j < |kws| && Contains(Lower(e.item.content), kws[j])
    {
      TopKMember(xs, 3, e);
      ScoredDocMatches(docs, kws, e);
    }
    if |kws| == 0 {
      TopKNoneScored(xs, 3);
    }
  }

  lemma ScoredDocMatches(docs: seq<Doc>, kws: seq<string>, e: Scored<Doc>)
    requires AllNonEmpty(kws) && e in ScoreDocs(docs, kws) && e.score > 0
    ensures e.item in docs && e.score == DocScore2(e.item.content, kws)
    ensures exists j :: 0 <= j < |kws| && Contains(Lower(e.item.content), kws[j])
  {
    var xs := ScoreDocs(docs, kws);
    var i :| 0 <= i < |xs| && xs[i] == e;
    DocScorePositive(e.item.content, kws);
  }

  /** A scoring chunk is left out only behind three chunks that score at least as well. */
  lemma SearchDocumentsDominates(docs: seq<Doc>, query: string, d: Doc)
    requires d in docs
    ensures var r := SearchDocuments(docs, query); var kws := Keywords(query);
      && AllNonEmpty(kws)
      && (DocScore2(d.content, kws) > 0 && Scored(d, DocScore2(d.content, kws)) !in r ==>
            |r| == 3 && forall e :: e in r ==> e.score >= DocScore2(d.content, kws))
  {
    var kws := Keywords(query);
    KeywordsNonEmpty(query);
    var xs := ScoreDocs(docs, kws);
    var i :| 0 <= i < |docs| && docs[i] == d;
    assert xs[i] == Scored(d, DocScore2(d.content, kws));
    if DocScore2(d.content, kws) > 0 && xs[i] !in SearchDocuments(docs, query) {
      TopKDominates(xs, 3, xs[i]);
    }
  }

  const QueryRequired: string := "Error: Query parameter is required"
  const NoPolicies: string :=
    "No relevant policies found for this query. " + "I recommend connecting you with our legal team for assistance."

  /** `/search-policies`. */
  function SearchPolicies(docs: seq<Doc>, r: ToolRequest): ToolResponse {
    var query := Argument(r, "query", true);
    if !Truthy(query) then ToolResponse(400, ToolCallId(r), QueryRequired)
    else
      var results := SearchDocuments(docs, query.value);
      if |results| == 0 then ToolResponse(200, ToolCallId(r), NoPolicies)
      else ToolResponse(200, ToolCallId(r), Join(Contents(results), " "))
  }

  /** No query gives 400; a query that finds no chunk gives the fixed sentence; otherwise the found chunks joined by spaces. */
  lemma SearchPoliciesSpec(docs: seq<Doc>, r: ToolRequest)
    ensures var resp := SearchPolicies(docs, r); var src := ArgSources(r, "query", true);
      && resp.toolCallId == ToolCallId(r)
      && (resp.status == 400 <==> forall i :: 0 <= i < |src| ==> !Truthy(src[i]))
      && (resp.status == 400 ==> resp.result == QueryRequired)
      && (resp.status != 400 ==>
            var results := SearchDocuments(docs, Argument(r, "query", true).value);
            resp.result == if |results| == 0 then NoPolicies else Join(Contents(results), " "))
  {
    ArgumentSpec(r, "query", true);
  }

  // ---------------------------------------------------------------------------
  // searchVendors
  // ---------------------------------------------------------------------------

  /** A vendor record; the discount and rating are kept as their rendered text. */
  datatype Vendor = Vendor(name: string, skills: seq<string>, pastProjects: seq<string>,
                           averageDiscount: string, rating: string)

  /** How many keywords the lower-cased item contains. */
  function MatchingKeywords(item: string, kws: seq<string>): nat
    decreases |kws|
  {
    if |kws| == 0 then 0
    else MatchingKeywords(item, kws[..|kws| - 1]) + (if Contains(Lower(item), kws[|kws| - 1]) then 1 else 0)
  }

  /** The number of (item, keyword) pairs where the item contains the keyword. */
  function PairCount(items: seq<string>, kws: seq<string>): nat
    decreases |items|
  {
    if |items| == 0 then 0 else PairCount(items[..|items| - 1], kws) + MatchingKeywords(items[|items| - 1], kws)
  }

  /** 10 if the name contains the whole query, 5 per (skill, keyword) match, 3 per (project, keyword) match. */
  function VendorScore(v: Vendor, queryLower: string, kws: seq<string>): nat {
    (if Contains(Lower(v.name), queryLower) then 10 else 0) + 5 * PairCount(v.skills, kws) + 3 * PairCount(v.pastProjects, kws)
  }

  /** The nested `forEach` over items and keywords, adding `points` per match. */
  method CountPairs(items: seq<string>, kws: seq<string>, points: nat) returns (total: nat)
    ensures total == points * PairCount(items, kws)
  {
    total := 0;
    var i := 0;
    while i < |items|
      invariant 0 <= i <= |items|
      invariant total == points * PairCount(items[..i], kws)
    {
      assert items[..i + 1][..i] == items[..i];
      var matches := CountMatches(items[i], kws, points);
      Distribute(points, PairCount(items[..i], kws), MatchingKeywords(items[i], kws));
      total := total + matches;
      i := i + 1;
    }
    assert items[..i] == items;
  }

  /** The inner `forEach` over the keywords for one item. */
  method CountMatches(item: string, kws: seq<string>, points: nat) returns (total: nat)
    ensures total == points * MatchingKeywords(item, kws)
  {
    total := 0;
    var j := 0;
    while j < |kws|
      invariant 0 <= j <= |kws|
      invariant total == points * MatchingKeywords(item, kws[..j])
    {
      assert kws[..j + 1][..j] == kws[..j];
      if Contains(Lower(item), kws[j]) {
        Distribute(points, MatchingKeywords(item, kws[..j]), 1);
        total := total + points;
      }
      j := j + 1;
    }
    assert kws[..j] == kws;
  }

  lemma Distribute(p: nat, a: nat, b: nat)
    ensures p * (a + b) == p * a + p * b
  {
  }

  /** The per-vendor scoring of `searchVendors`. */
  method ScoreVendor(v: Vendor, queryLower: string, kws: seq<string>) returns (score: nat)
    ensures score == VendorScore(v, queryLower, kws)
  {
    score := 0;
    if Contains(Lower(v.name), queryLower) {
      score := score + 10;
    }
    var skills := CountPairs(v.skills, kws, 5);
    score := score + skills;
    var projects := CountPairs(v.pastProjects, kws, 3);
    score := score + projects;
  }

  lemma {:induction false} MatchingKeywordsPositive(item: string, kws: seq<string>)
    ensures MatchingKeywords(item, kws) > 0 <==> exists j :: 0 <= j < |kws| && Contains(Lower(item), kws[j])
    decreases |kws|
  {
    if |kws| > 0 {
      var init := kws[..|kws| - 1];
      MatchingKeywordsPositive(item, init);
      if exists j :: 0 <= j < |kws| && Contains(Lower(item), kws[j]) {
        var j :| 0 <= j < |kws| && Contains(Lower(item), kws[j]);
        if j < |init| {
          assert init[j] == kws[j];
        }
      }
      if exists j :: 0 <= j < |init| && Contains(Lower(item), init[j]) {
        var j :| 0 <= j < |init| && Contains(Lower(item), init[j]);
        assert kws[j] == init[j];
      }
    }
  }

  /** Some item matches some keyword exactly when the pair count is positive. */
  lemma {:induction false} PairCountPositive(items: seq<string>, kws: seq<string>)
    ensures PairCount(items, kws) > 0
      <==> exists i, j :: 0 <= i < |items| && 0 <= j < |kws| && Contains(Lower(items[i]), kws[j])
    decreases |items|
  {
    if |items| > 0 {
      var init := items[..|items| - 1];
      var last := items[|items| - 1];
      PairCountPositive(init, kws);
      MatchingKeywordsPositive(last, kws);
      if exists i, j :: 0 <= i < |items| && 0 <= j < |kws| && Contains(Lower(items[i]), kws[j]) {
        var i, j :| 0 <= i < |items| && 0 <= j < |kws| && Contains(Lower(items[i]), kws[j]);
        if i < |init| {
          assert init[i] == items[i];
        }
      }
      if exists i, j :: 0 <= i < |init| && 0 <= j < |kws| && Contains(Lower(init[i]), kws[j]) {
        var i, j :| 0 <= i < |init| && 0 <= j < |kws| && Contains(Lower(init[i]), kws[j]);
        assert items[i] == init[i];
      }
    }
  }

  /** A vendor scores above zero exactly when its name has the query or one of its skills or projects has a keyword. */
  lemma VendorScorePositive(v: Vendor, queryLower: string, kws: seq<string>)
    ensures VendorScore(v, queryLower, kws) > 0 <==>
      || Contains(Lower(v.name), queryLower)
      || (exists i, j :: 0 <= i < |v.skills| && 0 <= j < |kws| && Contains(Lower(v.skills[i]), kws[j]))
      || (exists i, j :: 0 <= i < |v.pastProjects| && 0 <= j < |kws| && Contains(Lower(v.pastProjects[i]), kws[j]))
  {
    PairCountPositive(v.skills, kws);
    PairCountPositive(v.pastProjects, kws);
  }

  function ScoreVendors(vs: seq<Vendor>, query: string): (r: seq<Scored<Vendor>>)
    ensures |r| == |vs|
    ensures forall i :: 0 <= i < |vs| ==> r[i] == Scored(vs[i], VendorScore(vs[i], Lower(query), Keywords(query)))
  {
    seq(|vs|, i requires 0 <= i < |vs| => Scored(vs[i], VendorScore(vs[i], Lower(query), Keywords(query))))
  }

  /** `searchVendors(query)`: the five best-scoring vendors. */
  function SearchVendors(vs: seq<Vendor>, query: string): seq<Scored<Vendor>> {
    TopK(ScoreVendors(vs, query), 5)
  }

  /** At most five vendors, best first, each a stored vendor with its own positive score. */
  lemma SearchVendorsSpec(vs: seq<Vendor>, query: string)
    ensures var r := SearchVendors(vs, query);
      && |r| <= 5 && SortedDesc(r)
      && forall e :: e in r ==> e.item in vs && e.score == VendorScore(e.item, Lower(query), Keywords(query)) > 0
  {
    var xs := ScoreVendors(vs, query);
    TopKSpec(xs, 5);
    forall e | e in SearchVendors(vs, query)
      ensures e.item in vs && e.score == VendorScore(e.item, Lower(query), Keywords(query))
    {
      assert e in multiset(xs);
      var i :| 0 <= i < |xs| && xs[i] == e;
    }
  }

  /** A matching vendor is left out only when five kept vendors score at least as high. */
  lemma SearchVendorsDominates(vs: seq<Vendor>, query: string, v: Vendor)
    requires v in vs
    ensures var r := SearchVendors(vs, query); var score := VendorScore(v, Lower(query), Keywords(query));
      score > 0 && Scored(v, score) !in r ==> |r| == 5 && forall e :: e in r ==> e.score >= score
  {
    var xs := ScoreVendors(vs, query);
    var i :| 0 <= i < |vs| && vs[i] == v;
    assert xs[i] == Scored(v, VendorScore(v, Lower(query), Keywords(query)));
    if xs[i].score > 0 && xs[i] !in SearchVendors(vs, query) {
      TopKDominates(xs, 5, xs[i]);
    }
  }


  function VendorLine(v: Vendor): string {
    v.name + ": " + Join(v.skills, ", ") + ". Past projects: " + Join(v.pastProjects, ", ")
      + ". Average discount: " + v.averageDiscount + ". Rating: " + v.rating + "."
  }

  function VendorLines(r: seq<Scored<Vendor>>): (lines: seq<string>)
    ensures |lines| == |r| && forall i :: 0 <= i < |r| ==> lines[i] == VendorLine(r[i].item)
  {
    seq(|r|, i requires 0 <= i < |r| => VendorLine(r[i].item))
  }

  const NoVendors: string :=
    "No vendors found matching that criteria. " + "I can help you research new vendors if needed."

  /** `/search-vendors`. */
  function SearchVendorsEndpoint(vs: seq<Vendor>, r: ToolRequest): ToolResponse {
    var query := Argument(r, "query", false);
    if !Truthy(query) then ToolResponse(400, ToolCallId(r), QueryRequired)
    else
      var results := SearchVendors(vs, query.value);
      if |results| == 0 then ToolResponse(200, ToolCallId(r), NoVendors)
      else ToolResponse(200, ToolCallId(r), Join(VendorLines(results), " "))
  }

  /** No query in the three places the vendor search reads gives 400; otherwise the fixed sentence or the vendor lines. */
  lemma SearchVendorsEndpointSpec(vs: seq<Vendor>, r: ToolRequest)
    ensures var resp := SearchVendorsEndpoint(vs, r); var src := ArgSources(r, "query", false);
      && resp.toolCallId == ToolCallId(r)
      && (resp.status == 400 <==> forall i :: 0 <= i < |src| ==> !Truthy(src[i]))
      && (resp.status == 400 ==> resp.result == QueryRequired)
      && (resp.status != 400 ==>
            var results := SearchVendors(vs, Argument(r, "query", false).value);
            resp.result == if |results| == 0 then NoVendors else Join(VendorLines(results), " "))
  {
    ArgumentSpec(r, "query", false);
  }

  // ---------------------------------------------------------------------------
  // validateProcurementRequest
  // ---------------------------------------------------------------------------

  /** The required fields, in the order they are checked, with the label each is reported under. */
  const Required: seq<(string, string)> := [
    ("budget_number", "budget number"),
    ("milestones", "milestones"),
    ("costs", "cost breakdown"),
    ("description", "project description")
  ]

  predicate Present(fields: Args, key: string) {
    Truthy(Get(Some(fields), key))
  }

  /** The labels of the absent fields among `reqs`, in order. */
  function MissingOf(fields: Args, reqs: seq<(string, string)>): (m: seq<string>)
    ensures |m| <= |reqs|
    ensures forall x :: x in m ==> exists i :: 0 <= i < |reqs| && reqs[i].1 == x
  {
    if |reqs| == 0 then []
    else (if Present(fields, reqs[0].0) then [] else [reqs[0].1]) + MissingOf(fields, reqs[1..])
  }

  function Missing(fields: Args): seq<string> {
    MissingOf(fields, Required)
  }

  function Warnings(fields: Args): seq<string> {
    if Present(fields, "deadline") then [] else ["deadline or timeline"]
  }

  /** `validateProcurementRequest(fields)`: one check after another, pushing onto two lists. */
  method ValidateProcurementRequest(fields: Args) returns (missing: seq<string>, warnings: seq<string>)
    ensures missing == Missing(fields) && warnings == Warnings(fields)
  {
    missing := [];
    warnings := [];
    if !Present(fields, "budget_number") {
      missing := missing + ["budget number"];
    }
    if !Present(fields, "milestones") {
      missing := missing + ["milestones"];
    }
    if !Present(fields, "costs") {
      missing := missing + ["cost breakdown"];
    }
    if !Present(fields, "description") {
      missing := missing + ["project description"];
    }
    if !Present(fields, "deadline") {
      warnings := warnings + ["deadline or timeline"];
    }
    MissingUnfold(fields);
  }

  /** The four checks one after another. */
  lemma MissingUnfold(fields: Args)
    ensures Missing(fields) ==
      (if Present(fields, "budget_number") then [] else ["budget number"])
      + (if Present(fields, "milestones") then [] else ["milestones"])
      + (if Present(fields, "costs") then [] else ["cost breakdown"])
      + (if Present(fields, "description") then [] else ["project description"])
  {
    var a := if Present(fields, "budget_number") then [] else ["budget number"];
    var b := if Present(fields, "milestones") then [] else ["milestones"];
    var c := if Present(fields, "costs") then [] else ["cost breakdown"];
    var d := if Present(fields, "description") then [] else ["project description"];
    var r0 := Required;
    var r1 := [("milestones", "milestones"), ("costs", "cost breakdown"), ("description", "project description")];
    var r2 := [("costs", "cost breakdown"), ("description", "project description")];
    var r3 := [("description", "project description")];
    assert r0[1..] == r1 && r1[1..] == r2 && r2[1..] == r3 && r3[1..] == [];
    assert MissingOf(fields, r3) == d + MissingOf(fields, []) == d;
    assert MissingOf(fields, r2) == c + d;
    assert MissingOf(fields, r1) == b + (c + d);
    assert MissingOf(fields, r0) == a + (b + (c + d));
  }

  lemma {:induction false} MissingOfSpec(fields: Args, reqs: seq<(string, string)>, text: string)
    requires forall i, j :: 0 <= i < j < |reqs| ==> reqs[i].1 != reqs[j].1
    ensures text in MissingOf(fields, reqs) <==> exists i :: 0 <= i < |reqs| && reqs[i].1 == text && !Present(fields, reqs[i].0)
    decreases |reqs|
  {
    if |reqs| > 0 {
      MissingOfSpec(fields, reqs[1..], text);
      if exists i :: 0 <= i < |reqs| && reqs[i].1 == text && !Present(fields, reqs[i].0) {
        var i :| 0 <= i < |reqs| && reqs[i].1 == text && !Present(fields, reqs[i].0);
        if i > 0 {
          assert reqs[1..][i - 1] == reqs[i];
        }
      }
      if exists i :: 0 <= i < |reqs[1..]| && reqs[1..][i].1 == text && !Present(fields, reqs[1..][i].0) {
        var i :| 0 <= i < |reqs[1..]| && reqs[1..][i].1 == text && !Present(fields, reqs[1..][i].0);
        assert reqs[i + 1] == reqs[1..][i];
      }
    }
  }

  /** The labels keep the order of the requirements: those of a concatenation are the concatenation of the labels. */
  lemma {:induction false} MissingOfAppend(fields: Args, a: seq<(string, string)>, b: seq<(string, string)>)
    ensures MissingOf(fields, a + b) == MissingOf(fields, a) + MissingOf(fields, b)
    decreases |a|
  {
    if |a| == 0 {
      assert a + b == b;
    } else {
      assert (a + b)[0] == a[0];
      assert (a + b)[1..] == a[1..] + b;
      MissingOfAppend(fields, a[1..], b);
    }
  }

  /** A label is reported missing exactly when its field is absent or empty. */
  lemma MissingIff(fields: Args)
    ensures forall i :: 0 <= i < |Required| ==> (Required[i].1 in Missing(fields) <==> !Present(fields, Required[i].0))
    ensures "deadline or timeline" in Warnings(fields) <==> !Present(fields, "deadline")
  {
    forall i | 0 <= i < |Required|
      ensures Required[i].1 in Missing(fields) <==> !Present(fields, Required[i].0)
    {
      MissingOfSpec(fields, Required, Required[i].1);
    }
  }

  /** The deadline never makes a request incomplete. */
  lemma MissingIgnoresDeadline(fields: Args, x: string)
    ensures Missing(fields["deadline" := x]) == Missing(fields)
  {
    var g := fields["deadline" := x];
    MissingUnfold(fields);
    MissingUnfold(g);
    assert Present(g, "budget_number") == Present(fields, "budget_number");
    assert Present(g, "milestones") == Present(fields, "milestones");
    assert Present(g, "costs") == Present(fields, "costs");
    assert Present(g, "description") == Present(fields, "description");
  }

  /** A request without any field misses all four, in the checked order. */
  lemma MissingAllFour()
    ensures Missing(map[]) == ["budget number", "milestones", "cost breakdown", "project description"]
  {
    MissingUnfold(map[]);
  }

  const ReadyText: string := "All required fields are present! " + "Your request is ready to submit."

  /** The result sentence of `/validate-request`. */
  function ValidationText(missing: seq<string>, warnings: seq<string>): string {
    if |missing| > 0 then
      "Missing required fields: " + Join(missing, ", ") + ". Please provide these before I can submit your request."
    else if |warnings| > 0 then ReadyText + " Note: Consider adding: " + Join(warnings, ", ") + "."
    else ReadyText
  }

  /** `message?.toolCallList?.[0]?.function?.arguments || {}`. */
  function Fields(r: ToolRequest): Args {
    if r.message.Some? && |r.message.value.toolCallList| > 0 && r.message.value.toolCallList[0].arguments.Some?
    then r.message.value.toolCallList[0].arguments.value
    else map[]
  }

  /** `/validate-request`: always 200. */
  function ValidateRequest(r: ToolRequest): ToolResponse {
    ToolResponse(200, ToolCallId(r), ValidationText(Missing(Fields(r)), Warnings(Fields(r))))
  }

  /**
   * Warnings reach the text only when nothing is missing: with a field
   * missing the text does not depend on the deadline; with all present it is
   * the ready sentence, followed by the deadline note exactly when the
   * deadline is absent.
   */
  lemma ValidationTextSpec(fields: Args, x: string)
    ensures var m := Missing(fields);
      && (|m| > 0 ==> ValidationText(m, Warnings(fields)) == ValidationText(m, Warnings(fields["deadline" := x])))
      && (|m| > 0 ==> StartsWith(ValidationText(m, Warnings(fields)), "Missing required fields: "))
      && (|m| == 0 && Present(fields, "deadline") ==> ValidationText(m, Warnings(fields)) == ReadyText)
      && (|m| == 0 && !Present(fields, "deadline") ==>
            ValidationText(m, Warnings(fields)) == ReadyText + " Note: Consider adding: deadline or timeline.")
  {
    var m := Missing(fields);
    if |m| > 0 {
      MissingText(m, Warnings(fields), Warnings(fields["deadline" := x]));
    } else if !Present(fields, "deadline") {
      NoteText(Warnings(fields));
    }
  }

  /** With something missing, the text names the missing fields and ignores the warnings. */
  lemma MissingText(m: seq<string>, w1: seq<string>, w2: seq<string>)
    requires |m| > 0
    ensures ValidationText(m, w1) == ValidationText(m, w2)
    ensures StartsWith(ValidationText(m, w1), "Missing required fields: ")
  {
    var rest := Join(m, ", ") + ". Please provide these before I can submit your request.";
    assert ValidationText(m, w1) == "Missing required fields: " + rest;
    AffixesOfConcat("Missing required fields: ", rest);
  }

  lemma NoteText(w: seq<string>)
    requires w == ["deadline or timeline"]
    ensures ValidationText([], w) == ReadyText + " Note: Consider adding: deadline or timeline."
  {
    assert Join(w, ", ") == "deadline or timeline";
  }

  /**
   * A request without arguments is answered with all four fields missing:
   * no message, an empty `toolCallList` or a first tool call without
   * `arguments` all read as `{}`; with no message the id is "unknown".
   */
  lemma ValidateEmptyRequest(r: ToolRequest)
    requires Fields(r) == map[]
    ensures ValidateRequest(r).result == "Missing required fields: "
      + ("budget number" + ", " + "milestones" + ", " + "cost breakdown" + ", " + "project description")
      + ". Please provide these before I can submit your request."
    ensures r.message.None? ==> ValidateRequest(r).toolCallId == "unknown"
  {
    MissingAllFour();
    JoinAllFour();
  }

  lemma JoinAllFour()
    ensures Join(["budget number", "milestones", "cost breakdown", "project description"], ", ")
      == "budget number" + ", " + "milestones" + ", " + "cost breakdown" + ", " + "project description"
  {
    var labels := ["budget number", "milestones", "cost breakdown", "project description"];
    assert labels[1..] == ["milestones", "cost breakdown", "project description"];
    assert labels[1..][1..] == ["cost breakdown", "project description"];
    assert labels[1..][1..][1..] == ["project description"];
  }

  /** Each of the argument-less shapes of a request reads as `{}`. */
  lemma FieldsEmptyCases(r: ToolRequest)
    ensures r.message.None? ==> Fields(r) == map[]
    ensures r.message.Some? && |r.message.value.toolCallList| == 0 ==> Fields(r) == map[]
    ensures r.message.Some? && |r.message.value.toolCallList| > 0 && r.message.value.toolCallList[0].arguments.None?
      ==> Fields(r) == map[]
  {
  }
}
