/**
 * The education page: the article list narrowed by category, type, duration
 * and a search text, the list of saved articles, and the reset of the
 * filters. The articles and categories are tables of the page itself; the
 * filters take the article list as a parameter.
 */
module Education {
  import opened Seqs
  import opened Text

  datatype Article = Article(
    id: string,
    title: string,
    description: string,
    kind: string,
    category: string,
    duration: string,
    popular: bool)

  datatype Category = Category(id: string, name: string)

  /** The category buttons, "all" first. */
  const Categories: seq<Category> := [
    Category("all", "Todos"),
    Category("iniciante", "Iniciante"),
    Category("intermediario", "Intermediário"),
    Category("avancado", "Avançado"),
    Category("investimentos", "Investimentos"),
    Category("dicas", "Dicas de Economia")]

  /** categories.find(c => c.id === id)?.name */
  function FindCategoryName(cs: seq<Category>, id: string): (r: Option<string>)
    ensures r.Some? <==> exists i :: 0 <= i < |cs| && cs[i].id == id
    ensures r.Some? ==> exists i :: 0 <= i < |cs| && cs[i].id == id && cs[i].name == r.value
  {
    if cs == [] then None
    else if cs[0].id == id then Some(cs[0].name)
    else FindCategoryName(cs[1..], id)
  }

  /**
   * The name the category filter compares with: none for "all", for an id
   * not in the table, or for an empty name.
   */
  function CategoryFilterName(active: string): Option<string>
  {
    if active == "all" then None
    else
      var name := FindCategoryName(Categories, active);
      if name.Some? && name.value != "" then name else None
  }

  /** A type or duration filter applies when it is set to a nonempty value. */
  predicate IsSet(f: Option<string>)
  {
    f.Some? && f.value != ""
  }

  // ----------------------------------------------------- the four tests

  function Anything(): Article -> bool
  {
    (a: Article) => true
  }

  predicate HasCategory(name: string, a: Article)
  {
    ToLower(a.category) == ToLower(name)
  }

  function SameCategory(name: string): Article -> bool
  {
    (a: Article) => HasCategory(name, a)
  }

  function OfKind(kind: string): Article -> bool
  {
    (a: Article) => a.kind == kind
  }

  /** The duration buckets over parseInt of the duration; any other bucket name keeps everything. */
  predicate InBucket(bucket: string, minutes: Option<int>)
  {
    if bucket == "short" then minutes.Some? && minutes.value <= 5
    else if bucket == "medium" then minutes.Some? && 5 < minutes.value <= 15
    else if bucket == "long" then minutes.Some? && minutes.value > 15
    else true
  }

  predicate LastsFor(bucket: string, a: Article)
  {
    InBucket(bucket, ParseInt(a.duration))
  }

  function OfDuration(bucket: string): Article -> bool
  {
    (a: Article) => LastsFor(bucket, a)
  }

  /** The search test: the lower-cased text occurs in the title, description or category. */
  predicate MentionedIn(query: string, a: Article)
  {
    var q := ToLower(query);
    Contains(ToLower(a.title), q) || Contains(ToLower(a.description), q) || Contains(ToLower(a.category), q)
  }

  function Mentions(query: string): Article -> bool
  {
    (a: Article) => MentionedIn(query, a)
  }

  function CategoryKeep(active: string): Article -> bool
  {
    var name := CategoryFilterName(active);
    if name.Some? then SameCategory(name.value) else Anything()
  }

  function KindKeep(typeFilter: Option<string>): Article -> bool
  {
    if IsSet(typeFilter) then OfKind(typeFilter.value) else Anything()
  }

  function DurationKeep(durationFilter: Option<string>): Article -> bool
  {
    if IsSet(durationFilter) then OfDuration(durationFilter.value) else Anything()
  }

  function SearchKeep(query: string): Article -> bool
  {
    if Trim(query) != "" then Mentions(query) else Anything()
  }

  function Both(p: Article -> bool, q: Article -> bool): Article -> bool
  {
    (a: Article) => p(a) && q(a)
  }

  /** All four filters at once: the reference the step-by-step effect is proved against. */
  function Keeps(active: string, typeFilter: Option<string>, durationFilter: Option<string>, query: string): Article -> bool
  {
    Both(Both(Both(CategoryKeep(active), KindKeep(typeFilter)), DurationKeep(durationFilter)), SearchKeep(query))
  }

  /**
   * The visible articles are the articles, in their order, that pass every
   * filter that is set, and every such article is visible.
   */
  lemma VisibleArticles(articles: seq<Article>, active: string, typeFilter: Option<string>, durationFilter: Option<string>, query: string)
    ensures var r := Filter(articles, Keeps(active, typeFilter, durationFilter, query));
            && IsSubsequence(r, articles)
            && (forall i :: 0 <= i < |r| ==>
                  && (CategoryFilterName(active).Some? ==> ToLower(r[i].category) == ToLower(CategoryFilterName(active).value))
                  && (IsSet(typeFilter) ==> r[i].kind == typeFilter.value)
                  && (IsSet(durationFilter) ==> InBucket(durationFilter.value, ParseInt(r[i].duration)))
                  && (Trim(query) != "" ==> Mentions(query)(r[i])))
            && (forall i :: 0 <= i < |articles| && Keeps(active, typeFilter, durationFilter, query)(articles[i]) ==> articles[i] in r)
  {
    var keep := Keeps(active, typeFilter, durationFilter, query);
    FilterIsSubsequence(articles, keep);
    FilterMembers(articles, keep);
  }

  /** "all", and a category id the table does not know, filter nothing. */
  lemma CategoryAllOrUnknown(active: string, a: Article)
    requires active == "all" || forall i :: 0 <= i < |Categories| ==> Categories[i].id != active
    ensures CategoryKeep(active)(a)
  {
  }

  /**
   * Every duration that parses falls in exactly one of the three buckets, and
   * a duration that does not parse falls in none.
   */
  lemma DurationBuckets(minutes: Option<int>)
    ensures minutes.Some? ==>
              (InBucket("short", minutes) || InBucket("medium", minutes) || InBucket("long", minutes))
              && !(InBucket("short", minutes) && InBucket("medium", minutes))
              && !(InBucket("short", minutes) && InBucket("long", minutes))
              && !(InBucket("medium", minutes) && InBucket("long", minutes))
    ensures minutes.None? ==> !InBucket("short", minutes) && !InBucket("medium", minutes) && !InBucket("long", minutes)
  {
  }

  /** A search text of blanks filters nothing. */
  lemma BlankQueryKeepsAll(query: string, a: Article)
    requires forall i :: 0 <= i < |query| ==> IsWhitespace(query[i])
    ensures SearchKeep(query)(a)
  {
    TrimBlank(query);
  }

  /** With the filters cleared every article is visible again. */
  lemma {:induction false} ClearedShowsAll(articles: seq<Article>)
    ensures Filter(articles, Keeps("all", None, None, "")) == articles
  {
    var k := Keeps("all", None, None, "");
    assert CategoryKeep("all") == Anything();
    assert KindKeep(None) == Anything() && DurationKeep(None) == Anything();
    TrimBlank("");
    assert SearchKeep("") == Anything();
    forall a | a in articles
      ensures k(a)
    {
    }
    FilterAll(articles, k);
  }

  /** The category step of the effect keeps what the category test keeps. */
  lemma CategoryStep(articles: seq<Article>, active: string)
    ensures var name := FindCategoryName(Categories, active);
            Filter(articles, CategoryKeep(active))
            == if active != "all" && name.Some? && name.value != "" then Filter(articles, SameCategory(name.value)) else articles
  {
    if CategoryFilterName(active).None? {
      FilterAll(articles, CategoryKeep(active));
    }
  }

  /**
   * One more step of the effect: filtering by the test p when it is set, or
   * skipping it, keeps what the conjunction with its keep-test keeps.
   */
  lemma AddConjunct(articles: seq<Article>, k: Article -> bool, p: Article -> bool, applies: bool, keep: Article -> bool)
    requires keep == if applies then p else Anything()
    ensures Filter(articles, Both(k, keep)) == if applies then Filter(Filter(articles, k), p) else Filter(articles, k)
  {
    if applies {
      FilterCompose(articles, k, p, Both(k, keep));
    } else {
      FilterEquiv(articles, k, Both(k, keep));
    }
  }

  // ------------------------------------------------------- saved list

  function IsNot(id: string): string -> bool
  {
    (x: string) => x != id
  }

  /** toggleSaveArticle: a saved id is removed, any other is appended. */
  function Toggle(saved: seq<string>, id: string): (r: seq<string>)
    ensures id in r <==> id !in saved
    ensures forall x :: x != id ==> (x in r <==> x in saved)
  {
    FilterMembers(saved, IsNot(id));
    if id in saved then Filter(saved, IsNot(id)) else saved + [id]
  }

  /**
   * Toggling keeps the list free of repeats, and toggling an id twice
   * restores the set of saved ids; when the id was not saved it restores the
   * list itself.
   */
  lemma {:induction false} ToggleTwice(saved: seq<string>, id: string)
    ensures NoDuplicates(saved) ==> NoDuplicates(Toggle(saved, id))
    ensures forall x :: x in Toggle(Toggle(saved, id), id) <==> x in saved
    ensures id !in saved ==> Toggle(Toggle(saved, id), id) == saved
  {
    if id !in saved {
      var once := saved + [id];
      assert Toggle(saved, id) == once;
      FilterAppend(saved, [id], IsNot(id));
      FilterAll(saved, IsNot(id));
      assert Filter([id], IsNot(id)) == [];
      assert Filter(once, IsNot(id)) == saved;
    } else if NoDuplicates(saved) {
      FilterSubsequenceUnique(saved, IsNot(id));
    }
  }

  /** A filtered list without repeats has none either. */
  lemma {:induction false} FilterSubsequenceUnique(s: seq<string>, p: string -> bool)
    requires NoDuplicates(s)
    ensures NoDuplicates(Filter(s, p))
  {
    if s != [] {
      FilterSubsequenceUnique(s[1..], p);
      FilterMembers(s[1..], p);
      var rest := Filter(s[1..], p);
      var head := if p(s[0]) then [s[0]] else [];
      assert Filter(s, p) == head + rest;
      assert s[0] !in s[1..];
      forall i | 0 <= i < |rest|
        ensures rest[i] != s[0]
      {
        assert rest[i] in s[1..];
      }
    }
  }

  /**
   * The filtering effect: the filters that are set are applied one after the
   * other, and the result is what all four together keep.
   */
  method FilterArticles(articles: seq<Article>, activeCategory: string, typeFilter: Option<string>,
                        durationFilter: Option<string>, searchQuery: string) returns (filtered: seq<Article>)
    ensures filtered == Filter(articles, Keeps(activeCategory, typeFilter, durationFilter, searchQuery))
  {
    var k1 := CategoryKeep(activeCategory);
    var k2 := Both(k1, KindKeep(typeFilter));
    var k3 := Both(k2, DurationKeep(durationFilter));
    filtered := articles;
    var name := FindCategoryName(Categories, activeCategory);
    if activeCategory != "all" && name.Some? && name.value != "" {
      filtered := Filter(filtered, SameCategory(name.value));
    }
    CategoryStep(articles, activeCategory);
    assert filtered == Filter(articles, k1);
    if IsSet(typeFilter) {
      filtered := Filter(filtered, OfKind(typeFilter.value));
    }
    AddConjunct(articles, k1, OfKind(if IsSet(typeFilter) then typeFilter.value else ""), IsSet(typeFilter), KindKeep(typeFilter));
    assert filtered == Filter(articles, k2);
    if IsSet(durationFilter) {
      filtered := Filter(filtered, OfDuration(durationFilter.value));
    }
    AddConjunct(articles, k2, OfDuration(if IsSet(durationFilter) then durationFilter.value else ""), IsSet(durationFilter), DurationKeep(durationFilter));
    assert filtered == Filter(articles, k3);
    if Trim(searchQuery) != "" {
      filtered := Filter(filtered, Mentions(searchQuery));
    }
    AddConjunct(articles, k3, Mentions(searchQuery), Trim(searchQuery) != "", SearchKeep(searchQuery));
  }

  // ---------------------------------------------------------- the page

  class EducationPage {
    var searchQuery: string
    var activeCategory: string
    var typeFilter: Option<string>
    var durationFilter: Option<string>
    var visibleArticles: seq<Article>
    var savedArticles: seq<string>

    /** The page opens on every article, no filter and nothing saved. */
    constructor(articles: seq<Article>)
      ensures searchQuery == "" && activeCategory == "all" && typeFilter.None? && durationFilter.None?
      ensures visibleArticles == articles && savedArticles == []
    {
      searchQuery := "";
      activeCategory := "all";
      typeFilter := None;
      durationFilter := None;
      visibleArticles := articles;
      savedArticles := [];
    }

    /** The filtering effect, on the page's current filters. */
    method ApplyFilters(articles: seq<Article>)
      modifies this
      ensures visibleArticles == Filter(articles, Keeps(activeCategory, typeFilter, durationFilter, searchQuery))
      ensures searchQuery == old(searchQuery) && activeCategory == old(activeCategory)
      ensures typeFilter == old(typeFilter) && durationFilter == old(durationFilter)
      ensures savedArticles == old(savedArticles)
    {
      visibleArticles := FilterArticles(articles, activeCategory, typeFilter, durationFilter, searchQuery);
    }

    /** toggleSaveArticle. */
    method ToggleSaveArticle(id: string)
      modifies this
      ensures savedArticles == Toggle(old(savedArticles), id)
      ensures searchQuery == old(searchQuery) && activeCategory == old(activeCategory)
      ensures typeFilter == old(typeFilter) && durationFilter == old(durationFilter)
      ensures visibleArticles == old(visibleArticles)
    {
      savedArticles := Toggle(savedArticles, id);
    }

    /** clearFilters: no type, no duration, category "all" and an empty search text. */
    method ClearFilters()
      modifies this
      ensures typeFilter.None? && durationFilter.None? && activeCategory == "all" && searchQuery == ""
      ensures visibleArticles == old(visibleArticles) && savedArticles == old(savedArticles)
    {
      typeFilter := None;
      durationFilter := None;
      activeCategory := "all";
      searchQuery := "";
    }
  }
}
