/** The knowledge-base endpoints: the fixed category table, the demo text
    search (score, filter, stable sort by score, limit), the fields of a
    new document and the partial update of one. */
module KnowledgeApi {
  import opened Wrappers
  import opened Text
  import opened Doc

  /** The eight categories, id and display name, in table order. */
  const CATEGORIES: seq<(string, string)> := [
    ("bps", "BPSモデル"),
    ("clinical", "臨床推論"),
    ("guidelines", "診療ガイドライン"),
    ("homecare", "在宅医療制度"),
    ("palliative", "緩和ケア"),
    ("geriatric", "老年医学"),
    ("medication", "薬剤管理"),
    ("protocol", "院内プロトコル")
  ]

  /** `category in KNOWLEDGE_CATEGORIES`. */
  predicate IsCategory(c: string) {
    exists i :: 0 <= i < |CATEGORIES| && CATEGORIES[i].0 == c
  }

  /** Exactly the eight table ids are categories, and they are distinct. */
  lemma CategoryTable(c: string)
    ensures |CATEGORIES| == 8
    ensures forall i, j :: 0 <= i < j < |CATEGORIES| ==> CATEGORIES[i].0 != CATEGORIES[j].0
    ensures IsCategory(c) <==> c in ["bps", "clinical", "guidelines", "homecare", "palliative", "geriatric", "medication", "protocol"]
  {
    if c in ["bps", "clinical", "guidelines", "homecare", "palliative", "geriatric", "medication", "protocol"] {
      var k :| 0 <= k < 8 && ["bps", "clinical", "guidelines", "homecare", "palliative", "geriatric", "medication", "protocol"][k] == c;
      assert CATEGORIES[k].0 == c;
    }
  }

  // ---------------------------------------------------------------------
  // Create and update

  datatype NewDocument = NewDocument(title: string, category: string, source: string, status: string,
                                     totalChunks: nat, agentBindings: seq<string>,
                                     createdAt: string, updatedAt: string)

  /** `create_document`: 400 (`Err`) for an unknown category; otherwise a
      pending document with no chunks and no agent bindings, created and
      updated at `now`. */
  function CreateDocument(title: string, category: string, source: Option<string>, now: string): (r: Result<NewDocument, nat>)
    ensures r.Err? <==> !IsCategory(category)
    ensures r.Err? ==> r.error == 400
    ensures r.Ok? ==> r.value.status == "pending" && r.value.totalChunks == 0 && r.value.agentBindings == []
    ensures r.Ok? ==> r.value.title == title && r.value.category == category
    ensures r.Ok? ==> r.value.source == (if source.Some? then source.value else "")
    ensures r.Ok? ==> r.value.createdAt == now == r.value.updatedAt
  {
    if !IsCategory(category) then Err(400)
    else
      Ok(NewDocument(title, category, source.GetOr(""), "pending", 0, [], now, now))
  }

  /** The written fields of `update_document`, in order: "updated_at"
      always, then the title, category and source when given and
      non-empty; 400 (`Err`) for a non-empty unknown category, before
      anything is written. */
  function UpdateFields(title: Option<string>, category: Option<string>, source: Option<string>, now: string)
    : (r: Result<seq<(string, string)>, nat>)
  {
    var withTitle := [("updated_at", now)] + (if title.Some? && title.value != "" then [("title", title.value)] else []);
    if category.Some? && category.value != "" && !IsCategory(category.value) then Err(400)
    else
      var withCategory := withTitle + (if category.Some? && category.value != "" then [("category", category.value)] else []);
      Ok(withCategory + (if source.Some? && source.value != "" then [("source", source.value)] else []))
  }

  predicate Given(v: Option<string>) {
    v.Some? && v.value != ""
  }

  function FieldNames(fields: seq<(string, string)>): (r: seq<string>)
    ensures |r| == |fields| && forall i :: 0 <= i < |fields| ==> r[i] == fields[i].0
  {
    if fields == [] then [] else [fields[0].0] + FieldNames(fields[1..])
  }

  /** `updated_fields` lists "updated_at" first, then exactly the given
      fields in request order; an empty text counts as not given. */
  lemma UpdatedFieldsAreTheGivenOnes(title: Option<string>, category: Option<string>, source: Option<string>, now: string)
    requires !(Given(category) && !IsCategory(category.value))
    ensures var r := UpdateFields(title, category, source, now);
            r.Ok? && r.value[0] == ("updated_at", now) &&
            FieldNames(r.value) == ["updated_at"] + (if Given(title) then ["title"] else [])
                                    + (if Given(category) then ["category"] else [])
                                    + (if Given(source) then ["source"] else [])
  {
    var r := UpdateFields(title, category, source, now).value;
    var names := ["updated_at"] + (if Given(title) then ["title"] else [])
                                + (if Given(category) then ["category"] else [])
                                + (if Given(source) then ["source"] else []);
    assert |FieldNames(r)| == |names|;
    forall i | 0 <= i < |names|
      ensures FieldNames(r)[i] == names[i]
    {
    }
  }

  /** Every written value is the request's own value. */
  lemma UpdatedValuesAreTheRequests(title: Option<string>, category: Option<string>, source: Option<string>, now: string)
    ensures var r := UpdateFields(title, category, source, now);
            r.Ok? ==> forall i :: 0 <= i < |r.value| ==>
              (r.value[i].0 == "updated_at" ==> r.value[i].1 == now) &&
              (r.value[i].0 == "title" ==> title == Some(r.value[i].1)) &&
              (r.value[i].0 == "category" ==> category == Some(r.value[i].1) && IsCategory(r.value[i].1)) &&
              (r.value[i].0 == "source" ==> source == Some(r.value[i].1))
  {
  }

  /** An unknown category is refused whatever else is given. */
  lemma UnknownCategoryRefused(title: Option<string>, c: string, source: Option<string>, now: string)
    requires c != "" && !IsCategory(c)
    ensures UpdateFields(title, Some(c), source, now) == Err(400)
  {
  }

  // ---------------------------------------------------------------------
  // Search

  /** A stored knowledge document as the search reads it. */
  datatype StoredDoc = StoredDoc(id: string, title: Field<string>, category: Field<string>,
                                 source: Field<string>, status: Field<string>)

  datatype Hit = Hit(documentId: string, title: Option<string>, category: Option<string>,
                     source: Option<string>, score: nat, snippet: string)

  /** The store query: indexed documents, of the category when one is
      given. */
  predicate Selected(d: StoredDoc, category: Option<string>) {
    d.status == Present("indexed") && (!Given(category) || d.category == Present(category.value))
  }

  /** A document's relevance to the lowercased query: 10 for a match in
      the title, 5 in the source; a title or source stored as null raises
      (`None`). */
  function Score(queryLower: string, d: StoredDoc): (r: Option<nat>)
    ensures r.Some? <==> !d.title.Null? && !d.source.Null?
  {
    match (d.title.GetDefault(""), d.source.GetDefault(""))
    case (Some(t), Some(s)) =>
      Some((if Contains(Lower(t), queryLower) then 10 else 0) + (if Contains(Lower(s), queryLower) then 5 else 0))
    case _ => None
  }

  function TextOf(f: Field<string>): string {
    if f.Present? then f.value else ""
  }

  /** What the score means: above zero exactly when the query occurs in
      the title or the source, at least ten exactly when it occurs in the
      title. */
  lemma ScoreMeaning(queryLower: string, d: StoredDoc)
    requires Score(queryLower, d).Some?
    ensures var s := Score(queryLower, d).value;
            (s > 0 <==> Contains(Lower(TextOf(d.title)), queryLower) || Contains(Lower(TextOf(d.source)), queryLower)) &&
            (s >= 10 <==> Contains(Lower(TextOf(d.title)), queryLower)) &&
            (s == 0 || s == 5 || s == 10 || s == 15)
  {
  }

  function Snippet(title: Option<string>): string {
    "関連ドキュメント: " + match title case Some(t) => t case None => "None"
  }

  function HitOf(d: StoredDoc, score: nat): Hit {
    Hit(d.id, d.title.Get(), d.category.Get(), d.source.Get(), score, Snippet(d.title.Get()))
  }

  /** The hits in document order: every selected document with a positive
      score. */
  function Hits(queryLower: string, docs: seq<StoredDoc>, category: Option<string>): (r: Option<seq<Hit>>)
    ensures r.Some? ==> |r.value| <= |docs|
    ensures r.Some? ==> forall j :: 0 <= j < |r.value| ==> r.value[j].score in {5, 10, 15}
  {
    if docs == [] then Some([])
    else
      var d := docs[|docs| - 1];
      match Hits(queryLower, docs[..|docs| - 1], category)
      case None => None
      case Some(hs) =>
        if !Selected(d, category) then Some(hs)
        else match Score(queryLower, d)
          case None => None
          case Some(s) => if s > 0 then Some(hs + [HitOf(d, s)]) else Some(hs)
  }

  /** The hits of one score, in their order. */
  function WithScore(hs: seq<Hit>, k: nat): (r: seq<Hit>)
    ensures |r| <= |hs|
    ensures forall j :: 0 <= j < |r| ==> r[j].score == k
  {
    if hs == [] then []
    else WithScore(hs[..|hs| - 1], k) + (if hs[|hs| - 1].score == k then [hs[|hs| - 1]] else [])
  }

  /** `results.sort(key=score, reverse=True)` on scores that are 5, 10 or
      15: Python's sort is stable, so each score keeps its hits in their
      order. */
  function SortByScore(hs: seq<Hit>): seq<Hit> {
    WithScore(hs, 15) + WithScore(hs, 10) + WithScore(hs, 5)
  }

  predicate ScoresDescend(hs: seq<Hit>) {
    forall i, j :: 0 <= i < j < |hs| ==> hs[i].score >= hs[j].score
  }

  lemma SortedDescends(hs: seq<Hit>)
    ensures ScoresDescend(SortByScore(hs))
  {
    var a, b, c := WithScore(hs, 15), WithScore(hs, 10), WithScore(hs, 5);
    var s := a + b + c;
    forall i, j | 0 <= i < j < |s|
      ensures s[i].score >= s[j].score
    {
      var si := if i < |a| then 15 else if i < |a| + |b| then 10 else 5;
      var sj := if j < |a| then 15 else if j < |a| + |b| then 10 else 5;
      assert s[i].score == si by {
        if i < |a| { assert s[i] == a[i]; }
        else if i < |a| + |b| { assert s[i] == b[i - |a|]; }
        else { assert s[i] == c[i - |a| - |b|]; }
      }
      assert s[j].score == sj by {
        if j < |a| { assert s[j] == a[j]; }
        else if j < |a| + |b| { assert s[j] == b[j - |a|]; }
        else { assert s[j] == c[j - |a| - |b|]; }
      }
    }
  }

  predicate ScoredHits(hs: seq<Hit>) {
    forall j :: 0 <= j < |hs| ==> hs[j].score == 5 || hs[j].score == 10 || hs[j].score == 15
  }

  /** Sorting hits scored 5, 10 or 15 keeps every hit: a permutation. */
  lemma {:induction false} SortIsPermutation(hs: seq<Hit>)
    requires ScoredHits(hs)
    ensures multiset(SortByScore(hs)) == multiset(hs)
  {
    if hs != [] {
      var init := hs[..|hs| - 1];
      var last := hs[|hs| - 1];
      assert ScoredHits(init) by {
        forall j | 0 <= j < |init| ensures init[j].score == 5 || init[j].score == 10 || init[j].score == 15 {
          assert init[j] == hs[j];
        }
      }
      SortIsPermutation(init);
      assert hs == init + [last];
      assert multiset(hs) == multiset(init) + multiset{last};
    }
  }

  /** The sort is stable: the hits of each score keep their order. */
  lemma {:induction false} SortIsStable(hs: seq<Hit>, k: nat)
    requires k == 5 || k == 10 || k == 15
    ensures WithScore(SortByScore(hs), k) == WithScore(hs, k)
  {
    var a, b, c := WithScore(hs, 15), WithScore(hs, 10), WithScore(hs, 5);
    WithScoreAppend(a + b, c, k);
    WithScoreAppend(a, b, k);
    assert WithScore(a + b + c, k) == WithScore(a, k) + WithScore(b, k) + WithScore(c, k);
    WithScoreOf(a, 15, k);
    WithScoreOf(b, 10, k);
    WithScoreOf(c, 5, k);
    if k == 15 {
      assert WithScore(a + b + c, k) == a + [] + [];
    } else if k == 10 {
      assert WithScore(a + b + c, k) == [] + b + [];
    } else {
      assert WithScore(a + b + c, k) == [] + [] + c;
    }
  }

  lemma {:induction false} WithScoreAppend(xs: seq<Hit>, ys: seq<Hit>, k: nat)
    ensures WithScore(xs + ys, k) == WithScore(xs, k) + WithScore(ys, k)
    decreases |ys|
  {
    if ys == [] {
      assert xs + ys == xs;
    } else {
      var init := ys[..|ys| - 1];
      assert (xs + ys)[..|xs + ys| - 1] == xs + init;
      assert (xs + ys)[|xs + ys| - 1] == ys[|ys| - 1];
      WithScoreAppend(xs, init, k);
    }
  }

  /** Hits all scored `s` keep all of themselves for `s` and none for
      another score. */
  lemma {:induction false} WithScoreOf(hs: seq<Hit>, s: nat, k: nat)
    requires forall j :: 0 <= j < |hs| ==> hs[j].score == s
    ensures WithScore(hs, k) == if k == s then hs else []
  {
    if hs != [] {
      var init := hs[..|hs| - 1];
      assert forall j :: 0 <= j < |init| ==> init[j] == hs[j];
      WithScoreOf(init, s, k);
      if k == s {
        assert init + [hs[|hs| - 1]] == hs;
      }
    }
  }

  datatype SearchResult = SearchResult(results: seq<Hit>, query: string, total: nat)

  /** `search_knowledge`: the hits sorted by score and cut to `limit`
      (`results[:limit]`, so a negative limit drops hits from the end). */
  function Search(docs: seq<StoredDoc>, query: string, category: Option<string>, limit: int): (r: Option<SearchResult>)
    requires query != []
    ensures r.Some? ==> r.value.total == |r.value.results| && r.value.query == query
    ensures r.Some? && limit >= 0 ==> r.value.total <= limit
  {
    match Hits(Lower(query), docs, category)
    case None => None
    case Some(hs) =>
      var results := SlicePrefix(SortByScore(hs), limit);
      Some(SearchResult(results, query, |results|))
  }

  /** The results come best first. */
  lemma SearchBestFirst(docs: seq<StoredDoc>, query: string, category: Option<string>, limit: int)
    requires query != [] && Search(docs, query, category, limit).Some?
    ensures ScoresDescend(Search(docs, query, category, limit).value.results)
  {
    var hs := Hits(Lower(query), docs, category).value;
    SortedDescends(hs);
    var sorted := SortByScore(hs);
    var results := SlicePrefix(sorted, limit);
    assert forall j :: 0 <= j < |results| ==> results[j] == sorted[j];
  }

  /** With a limit at least the number of hits, every hit is returned. */
  lemma SearchKeepsAllHits(docs: seq<StoredDoc>, query: string, category: Option<string>, limit: int)
    requires query != [] && Hits(Lower(query), docs, category).Some?
    requires limit >= |Hits(Lower(query), docs, category).value|
    ensures multiset(Search(docs, query, category, limit).value.results) == multiset(Hits(Lower(query), docs, category).value)
  {
    var hs := Hits(Lower(query), docs, category).value;
    assert Hits(Lower(query), docs, category) == Some(hs);
    var sorted := SortByScore(hs);
    assert ScoredHits(hs);
    SortKeepsHits(hs);
    assert SlicePrefix(sorted, limit) == sorted;
    assert Search(docs, query, category, limit) == Some(SearchResult(sorted, query, |sorted|));
  }

  lemma SortKeepsHits(hs: seq<Hit>)
    requires ScoredHits(hs)
    ensures multiset(SortByScore(hs)) == multiset(hs) && |SortByScore(hs)| == |hs|
  {
    SortIsPermutation(hs);
    assert |multiset(SortByScore(hs))| == |SortByScore(hs)| && |multiset(hs)| == |hs|;
  }

  /** The search ignores the query's case. */
  lemma QueryCaseIgnored(docs: seq<StoredDoc>, query: string, category: Option<string>, limit: int)
    requires query != []
    ensures Lower(query) != []
    ensures Search(docs, Lower(query), category, limit).None? <==> Search(docs, query, category, limit).None?
    ensures Search(docs, query, category, limit).Some? ==>
              Search(docs, Lower(query), category, limit).value.results == Search(docs, query, category, limit).value.results
  {
    LowerIdempotent(query);
  }

  /** A document is a hit exactly when it is selected and the query
      occurs in its title or source. */
  lemma {:induction false} HitIff(queryLower: string, docs: seq<StoredDoc>, category: Option<string>, i: nat)
    requires Hits(queryLower, docs, category).Some? && i < |docs|
    requires forall j :: 0 <= j < |docs| && j != i ==> docs[j].id != docs[i].id
    ensures (exists j :: 0 <= j < |Hits(queryLower, docs, category).value| &&
                         Hits(queryLower, docs, category).value[j].documentId == docs[i].id) <==>
            Selected(docs[i], category) &&
            (Contains(Lower(TextOf(docs[i].title)), queryLower) || Contains(Lower(TextOf(docs[i].source)), queryLower))
  {
    var init := docs[..|docs| - 1];
    var d := docs[|docs| - 1];
    var hs := Hits(queryLower, init, category).value;
    if i < |init| {
      assert init[i] == docs[i];
      assert forall j :: 0 <= j < |init| && j != i ==> init[j].id != init[i].id;
      HitIff(queryLower, init, category, i);
      assert d.id != docs[i].id;
      var full := Hits(queryLower, docs, category).value;
      assert |hs| <= |full| && full[..|hs|] == hs && forall j :: |hs| <= j < |full| ==> full[j].documentId == d.id;
      if exists j :: 0 <= j < |full| && full[j].documentId == docs[i].id {
        var j :| 0 <= j < |full| && full[j].documentId == docs[i].id;
        assert j < |hs| && hs[j] == full[j];
      }
      if exists j :: 0 <= j < |hs| && hs[j].documentId == docs[i].id {
        var j :| 0 <= j < |hs| && hs[j].documentId == docs[i].id;
        assert full[j] == hs[j];
      }
    } else {
      HitsFromDocs(queryLower, init, category);
      assert forall j :: 0 <= j < |init| ==> init[j].id != d.id;
      if Selected(d, category) {
        ScoreMeaning(queryLower, d);
        assert Hits(queryLower, docs, category).value == hs || Hits(queryLower, docs, category).value == hs + [HitOf(d, Score(queryLower, d).value)];
        if Score(queryLower, d).value > 0 {
          assert Hits(queryLower, docs, category).value[|hs|].documentId == d.id;
        }
      }
    }
  }

  /** Every hit is of one of the documents. */
  lemma {:induction false} HitsFromDocs(queryLower: string, docs: seq<StoredDoc>, category: Option<string>)
    requires Hits(queryLower, docs, category).Some?
    ensures forall j :: 0 <= j < |Hits(queryLower, docs, category).value| ==>
              exists i :: 0 <= i < |docs| && docs[i].id == Hits(queryLower, docs, category).value[j].documentId
  {
    if docs != [] {
      var init := docs[..|docs| - 1];
      HitsFromDocs(queryLower, init, category);
      var hs := Hits(queryLower, init, category).value;
      forall j | 0 <= j < |hs|
        ensures exists i :: 0 <= i < |docs| && docs[i].id == hs[j].documentId
      {
        var i :| 0 <= i < |init| && init[i].id == hs[j].documentId;
        assert docs[i] == init[i];
      }
    }
  }

  /** The scoring loop of `search_knowledge`, followed by the sort and the
      limit. */
  method SearchKnowledge(docs: seq<StoredDoc>, query: string, category: Option<string>, limit: int)
    returns (r: Option<SearchResult>)
    requires query != []
    ensures r == Search(docs, query, category, limit)
  {
    var queryLower := Lower(query);
    var results: seq<Hit> := [];
    var i := 0;
    while i < |docs|
      invariant 0 <= i <= |docs|
      invariant Hits(queryLower, docs[..i], category) == Some(results)
    {
      assert docs[..i + 1][..i] == docs[..i];
      var d := docs[i];
      if Selected(d, category) {
        if d.title.Null? || d.source.Null? {
          HitsFailed(queryLower, docs, category, i + 1);
          return None;
        }
        var title := TextOf(d.title);
        var source := TextOf(d.source);
        var score := 0;
        if Contains(Lower(title), queryLower) {
          score := score + 10;
        }
        if Contains(Lower(source), queryLower) {
          score := score + 5;
        }
        if score > 0 {
          results := results + [HitOf(d, score)];
        }
      }
      i := i + 1;
    }
    assert docs[..i] == docs;
    var sorted := SortByScore(results);
    var limited := SlicePrefix(sorted, limit);
    r := Some(SearchResult(limited, query, |limited|));
  }

  lemma {:induction false} HitsFailed(queryLower: string, docs: seq<StoredDoc>, category: Option<string>, n: nat)
    requires n <= |docs| && Hits(queryLower, docs[..n], category).None?
    ensures Hits(queryLower, docs, category).None?
    decreases |docs| - n
  {
    if n < |docs| {
      assert docs[..n + 1][..n] == docs[..n];
      HitsFailed(queryLower, docs, category, n + 1);
    } else {
      assert docs[..n] == docs;
    }
  }
}
