/** Ranked search over the files of a tree by token overlap with the query. */
module SemanticSearch {
  import opened Outcomes
  import opened Text
  import opened Sorting

  /** A file the walk meets; reading it may fail. */
  datatype Doc = Doc(path: string, symlink: bool, content: Result<string>)

  /** A scored file.  The score is `overlap` over the number of query tokens, the same for all hits of a search. */
  datatype Hit = Hit(path: string, overlap: nat, snippet: string)

  /** The caps on the files visited and on the bytes searched in each. */
  datatype Engine = Engine(maxFiles: nat, maxFileBytes: nat)

  // ---- tokens ----

  predicate IsTokenChar(c: char) {
    'a' <= c <= 'z' || 'A' <= c <= 'Z' || '0' <= c <= '9' || c == '_'
  }

  function TokenPrefix(s: string): (n: nat)
    ensures n <= |s|
  {
    if s == "" || !IsTokenChar(s[0]) then 0 else 1 + TokenPrefix(s[1..])
  }

  /** The maximal runs of token characters. */
  function Runs(s: string): seq<string>
    decreases |s|
  {
    if s == "" then []
    else
      var n := TokenPrefix(s);
      if n == 0 then Runs(s[1..]) else [s[..n]] + Runs(s[n..])
  }

  function Tokenize(s: string): seq<string> {
    Runs(ToLower(s))
  }

  // ---- scoring ----

  /** How many of the query tokens, repetitions counted, occur in the document. */
  function Overlap(query: seq<string>, doc: seq<string>): (n: nat)
    ensures n <= |query|
  {
    if query == [] then 0
    else Overlap(query[..|query| - 1], doc) + if query[|query| - 1] in doc then 1 else 0
  }

  method OverlapScore(query: seq<string>, doc: seq<string>) returns (overlap: nat)
    ensures overlap == Overlap(query, doc)
  {
    var seen: set<string> := {};
    for i := 0 to |doc|
      invariant forall t :: t in seen <==> t in doc[..i]
    {
      seen := seen + {doc[i]};
    }
    assert doc[..|doc|] == doc;
    overlap := 0;
    for i := 0 to |query|
      invariant overlap == Overlap(query[..i], doc)
    {
      assert query[..i + 1][..i] == query[..i];
      if query[i] in seen {
        overlap := overlap + 1;
      }
    }
    assert query[..|query|] == query;
  }

  /** The text of a file that is searched. */
  function Searched(e: Engine, content: string): string {
    if |content| > e.maxFileBytes then content[..e.maxFileBytes] else content
  }

  function LineEnd(s: string): (n: nat)
    ensures n <= |s|
  {
    if s == "" || s[0] == '\n' then 0 else 1 + LineEnd(s[1..])
  }

  function Shorten(s: string): string {
    if |s| > 200 then s[..200] + "..." else s
  }

  function FirstLine(s: string, whole: string): string
    decreases |s|
  {
    var n := LineEnd(s);
    if !IsBlank(s[..n]) then Shorten(TrimSpace(s[..n]))
    else if n == |s| then Shorten(whole)
    else FirstLine(s[n + 1..], whole)
  }

  /** The first line that is not blank, shortened; or the shortened text. */
  function Summarize(content: string): string {
    FirstLine(content, content)
  }

  /** The hit a file gives, if it gives one. */
  function HitOf(e: Engine, query: seq<string>, d: Doc): Option<Hit> {
    if d.symlink || d.content.Err? then None
    else
      var text := Searched(e, d.content.value);
      var overlap := Overlap(query, Tokenize(text));
      if overlap == 0 then None else Some(Hit(d.path, overlap, Summarize(text)))
  }

  function Hits(e: Engine, query: seq<string>, docs: seq<Doc>): seq<Hit> {
    if docs == [] then []
    else
      var hit := HitOf(e, query, docs[|docs| - 1]);
      Hits(e, query, docs[..|docs| - 1]) + if hit.Some? then [hit.value] else []
  }

  /** A higher score first; equal scores by path. */
  function ByRank(): (Hit, Hit) -> bool {
    (a: Hit, b: Hit) => a.overlap > b.overlap || (a.overlap == b.overlap && Before(a.path, b.path))
  }

  // ---- the search ----

  /** The files within the cap, in walk order. */
  function Visited(e: Engine, docs: seq<Doc>): seq<Doc> {
    if |docs| > e.maxFiles then docs[..e.maxFiles] else docs
  }

  function Top(hits: seq<Hit>, limit: nat): seq<Hit> {
    var ranked := Sort(ByRank(), hits);
    if |ranked| > limit then ranked[..limit] else ranked
  }

  /** `walk` is the sequence of files the tree walk meets, or the error it ends with. */
  method Search(e: Engine, query: string, limit: int, walk: Result<seq<Doc>>) returns (r: Result<seq<Hit>>)
    ensures r.Err? <==> IsBlank(query) || Tokenize(query) == [] || walk.Err?
    ensures r.Ok? ==> r.value == Top(Hits(e, Tokenize(query), Visited(e, walk.value)), if limit <= 0 then 5 else limit)
  {
    if IsBlank(query) {
      return Err("query is required");
    }
    var limit := if limit <= 0 then 5 else limit;
    var qTokens := Tokenize(query);
    if qTokens == [] {
      return Err("query too short");
    }
    if walk.Err? {
      return Err(walk.error);
    }
    var docs := walk.value;
    var results: seq<Hit> := [];
    var count := 0;
    while count < |docs| && count < e.maxFiles
      invariant 0 <= count <= |docs| && (count <= e.maxFiles)
      invariant results == Hits(e, qTokens, docs[..count])
    {
      var d := docs[count];
      assert docs[..count + 1][..count] == docs[..count];
      count := count + 1;
      if d.symlink || d.content.Err? {
        continue;
      }
      var content := d.content.value;
      if |content| > e.maxFileBytes {
        content := content[..e.maxFileBytes];
      }
      var score := OverlapScore(qTokens, Tokenize(content));
      if score == 0 {
        continue;
      }
      results := results + [Hit(d.path, score, Summarize(content))];
    }
    assert docs[..count] == Visited(e, docs);
    results := Sort(ByRank(), results);
    if |results| > limit {
      results := results[..limit];
    }
    return Ok(results);
  }

  // ---- the laws ----

  lemma {:induction false} PrefixOfToken(w: string, sp: char, s: string)
    requires !IsTokenChar(sp) && forall c | c in w :: IsTokenChar(c)
    ensures TokenPrefix(w) == |w| && TokenPrefix(w + [sp] + s) == |w|
  {
    if w != "" {
      assert (w + [sp] + s)[1..] == w[1..] + [sp] + s;
      PrefixOfToken(w[1..], sp, s);
    } else {
      assert w + [sp] + s == [sp] + s;
    }
  }

  lemma RunsOfToken(w: string, sp: char, s: string)
    requires w != "" && !IsTokenChar(sp) && forall c | c in w :: IsTokenChar(c)
    ensures Runs("") == [] && Runs([sp] + s) == Runs(s)
    ensures Runs(w) == [w] && Runs(w + [sp] + s) == [w] + Runs(s)
  {
    PrefixOfToken(w, sp, s);
    var t := w + [sp] + s;
    assert w[..|w|] == w && w[|w|..] == "" && t[..|w|] == w && t[|w|..] == [sp] + s && ([sp] + s)[1..] == s;
  }

  /** The tokens of a text are its longest parts of letters, digits and underscores, in order and in lower case. */
  lemma TokensInOrder(w: string, sp: char, s: string)
    requires w != "" && forall c | c in w :: 'a' <= c <= 'z' || 'A' <= c <= 'Z' || '0' <= c <= '9' || c == '_'
    requires !('a' <= sp <= 'z' || 'A' <= sp <= 'Z' || '0' <= sp <= '9' || sp == '_')
    ensures Tokenize("") == [] && Tokenize([sp] + s) == Tokenize(s)
    ensures Tokenize(w) == [ToLower(w)] && Tokenize(w + [sp] + s) == [ToLower(w)] + Tokenize(s)
  {
    hide Runs;
    assert ToLower([sp] + s) == [LowerChar(sp)] + ToLower(s);
    assert ToLower(w + [sp] + s) == ToLower(w) + [LowerChar(sp)] + ToLower(s);
    assert ToLower("") == "";
    forall c | c in ToLower(w) ensures IsTokenChar(c) {
      var i :| 0 <= i < |w| && ToLower(w)[i] == c;
      assert w[i] in w;
    }
    RunsOfToken(ToLower(w), LowerChar(sp), ToLower(s));
  }

  /** The overlap is the number of places of the query whose token occurs in the document. */
  lemma {:induction false} OverlapCounts(query: seq<string>, doc: seq<string>)
    ensures Overlap(query, doc) == |set i | 0 <= i < |query| && query[i] in doc|
  {
    if query != [] {
      var rest, n := query[..|query| - 1], |query| - 1;
      OverlapCounts(rest, doc);
      var before := set i | 0 <= i < n && rest[i] in doc;
      assert (set i | 0 <= i < |query| && query[i] in doc) == before + if query[n] in doc then {n} else {};
    }
  }

  /** The first 200 characters and three dots, or the whole text if it is no longer. */
  predicate IsShort(text: string, short: string) {
    if |text| <= 200 then short == text else |short| == 203 && short[..200] == text[..200] && short[200..] == "..."
  }

  /** Lines, each with its line break. */
  function Lines(ls: seq<string>): string {
    if ls == [] then "" else ls[0] + "\n" + Lines(ls[1..])
  }

  lemma {:induction false} LineEnds(l: string, s: string)
    requires '\n' !in l && (s == "" || s[0] == '\n')
    ensures LineEnd(l + s) == |l|
  {
    if l == "" {
      assert l + s == s;
    } else {
      assert (l + s)[1..] == l[1..] + s;
      LineEnds(l[1..], s);
    }
  }

  lemma {:induction false} FirstLineSkips(blank: seq<string>, line: string, s: string, whole: string)
    requires forall l | l in blank :: '\n' !in l && IsBlank(l)
    requires '\n' !in line && (s == "" || s[0] == '\n')
    ensures !IsBlank(line) ==> FirstLine(Lines(blank) + line + s, whole) == Shorten(TrimSpace(line))
    ensures IsBlank(line) && s == "" ==> FirstLine(Lines(blank) + line + s, whole) == Shorten(whole)
  {
    hide IsBlank, TrimSpace, Shorten;
    if blank == [] {
      var t := line + s;
      assert Lines(blank) + line + s == t && t[..|line|] == line;
      LineEnds(line, s);
    } else {
      var t := Lines(blank) + line + s;
      var rest := Lines(blank[1..]) + line + s;
      assert t == blank[0] + ("\n" + rest);
      LineEnds(blank[0], "\n" + rest);
      assert t[..|blank[0]|] == blank[0] && t[|blank[0]| + 1..] == rest;
      FirstLineSkips(blank[1..], line, s, whole);
    }
  }

  /** The summary of a text is its first line that is not blank, without the white space around it; the whole text if
      there is no such line; shortened in either case. */
  lemma SummaryIsFirstLine(blank: seq<string>, line: string, s: string)
    requires forall l | l in blank :: '\n' !in l && IsBlank(l)
    requires '\n' !in line && (s == "" || s[0] == '\n')
    ensures !IsBlank(line) ==> IsShort(TrimSpace(line), Summarize(Lines(blank) + line + s))
    ensures IsBlank(line) && s == "" ==> IsShort(Lines(blank) + line, Summarize(Lines(blank) + line))
  {
    hide IsBlank, TrimSpace, FirstLine, Lines;
    var t := Lines(blank) + line + s;
    FirstLineSkips(blank, line, s, t);
    if s == "" {
      assert t == Lines(blank) + line;
    }
  }

  ghost predicate DistinctPaths(docs: seq<Doc>) {
    forall i, j | 0 <= i < j < |docs| :: docs[i].path != docs[j].path
  }

  /** The hits are those of the visited files, each path once. */
  lemma {:induction false} HitsOfDocs(e: Engine, query: seq<string>, docs: seq<Doc>)
    ensures forall h :: h in Hits(e, query, docs) <==> exists d | d in docs :: HitOf(e, query, d) == Some(h)
    ensures DistinctPaths(docs) ==>
              forall i, j | 0 <= i < j < |Hits(e, query, docs)| ::
                Hits(e, query, docs)[i].path != Hits(e, query, docs)[j].path
  {
    hide HitOf;
    if docs != [] {
      var rest, d := docs[..|docs| - 1], docs[|docs| - 1];
      HitsOfDocs(e, query, rest);
      assert forall x :: x in docs <==> x in rest || x == d;
      if DistinctPaths(docs) {
        forall h | h in Hits(e, query, rest)
          ensures HitOf(e, query, d).Some? ==> h.path != HitOf(e, query, d).value.path
        {
          var x :| x in rest && HitOf(e, query, x) == Some(h);
          HitPath(e, query, x);
          HitPath(e, query, d);
        }
      }
    }
  }

  lemma HitPath(e: Engine, query: seq<string>, d: Doc)
    ensures HitOf(e, query, d).Some? ==>
              var h := HitOf(e, query, d).value; h.path == d.path && 0 < h.overlap <= |query|
  {
  }

  lemma RankOrder(hits: set<Hit>)
    requires forall a, b | a in hits && b in hits && a.path == b.path :: a == b
    ensures Orders(ByRank(), hits)
  {
    var less := ByRank();
    forall a, b | a in hits && b in hits
      ensures less(a, b) ==> !less(b, a)
      ensures a != b ==> less(a, b) || less(b, a)
    {
      BeforeTrichotomy(a.path, b.path);
    }
    forall a, b, c | a in hits && b in hits && c in hits && less(a, b) && less(b, c) ensures less(a, c) {
      if a.overlap == b.overlap == c.overlap {
        BeforeTransitive(a.path, b.path, c.path);
      }
    }
  }

  /** The hits kept are the best ones, in rank order: as many as there are up to the limit, and every hit left out
      ranks after every hit kept. */
  lemma TopIsBest(hits: seq<Hit>, limit: nat)
    requires forall i, j | 0 <= i < j < |hits| :: hits[i].path != hits[j].path
    ensures var top := Top(hits, limit);
            && |top| == (if |hits| < limit then |hits| else limit)
            && (forall h | h in top :: h in hits)
            && (forall i, j | 0 <= i < j < |top| ::
                  || top[i].overlap > top[j].overlap
                  || (top[i].overlap == top[j].overlap && Before(top[i].path, top[j].path)))
            && (forall kept, out | kept in top && out in hits && out !in top ::
                  || kept.overlap > out.overlap
                  || (kept.overlap == out.overlap && Before(kept.path, out.path)))
  {
    var dom := set h | h in hits;
    RankOrder(dom);
    SortSorted(ByRank(), dom, hits);
    SortMembers(ByRank(), hits);
    FirstOfSorted(ByRank(), Sort(ByRank(), hits), |Top(hits, limit)|);
  }

  /** While the walk stays within the file cap, the result is the same for every order in which it meets the files. */
  lemma SearchIgnoresWalkOrder(e: Engine, query: seq<string>, limit: nat, a: seq<Doc>, b: seq<Doc>)
    requires DistinctPaths(a) && DistinctPaths(b) && forall d :: d in a <==> d in b
    requires |a| <= e.maxFiles && |b| <= e.maxFiles
    ensures Top(Hits(e, query, Visited(e, a)), limit) == Top(Hits(e, query, Visited(e, b)), limit)
  {
    hide HitOf;
    HitsOfDocs(e, query, a);
    HitsOfDocs(e, query, b);
    var ha, hb := Hits(e, query, a), Hits(e, query, b);
    assert forall h :: h in ha <==> h in hb;
    var dom := set h | h in ha;
    RankOrder(dom);
    assert Within(hb, dom) by {
      assert forall i | 0 <= i < |hb| :: hb[i] in hb;
    }
    SortIgnoresOrder(ByRank(), dom, ha, hb);
  }

  /** Every score lies above zero and at most at one. */
  lemma ScoresInRange(e: Engine, query: seq<string>, docs: seq<Doc>, limit: nat, h: Hit)
    requires DistinctPaths(docs) && h in Top(Hits(e, query, docs), limit)
    ensures 0 < h.overlap <= |query|
  {
    hide HitOf;
    HitsOfDocs(e, query, docs);
    TopIsBest(Hits(e, query, docs), limit);
    var d :| d in docs && HitOf(e, query, d) == Some(h);
    HitPath(e, query, d);
  }
}
