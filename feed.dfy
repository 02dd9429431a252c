/** The derived views of the dashboard (components/Dashboard.tsx): the listing feed
    (`filteredListings`), the search suggestions (`searchSuggestions`) and the
    recently-viewed strip (`recentlyViewedItems`). */
module Feed {
  import opened Seqs
  import opened Text
  import opened Entities

  const AllCategories: string := "All Categories"

  /** The category picker's entries, `All Categories` first. */
  const Categories: seq<string> :=
    [AllCategories, "Electronics", "Books", "Fashion", "Kitchen", "Home and furniture"]

  // ---------------------------------------------------------------------------
  // Sorting modes and their comparators
  // ---------------------------------------------------------------------------

  /** The sort picker: three named modes, and everything else (`Newest`, the initial
      value) taking the final `else` branch. */
  datatype SortMode = PriceLowToHigh | PriceHighToLow | UrgentFirst | Newest

  function ModeOf(sortBy: string): SortMode {
    if sortBy == "Price: Low to High" then PriceLowToHigh
    else if sortBy == "Price: High to Low" then PriceHighToLow
    else if sortBy == "Urgent First" then UrgentFirst
    else Newest
  }

  /** `a.localeCompare(b)`, with the code-point order standing in for the locale's collation. */
  function LocaleCompare(a: string, b: string): int {
    if a == b then 0 else if StrLt(a, b) then -1 else 1
  }

  /** The comparator each mode passes to `sort`: negative means `a` goes first. */
  function Compare(mode: SortMode, a: Listing, b: Listing): int {
    match mode
    case PriceLowToHigh => a.price - b.price
    case PriceHighToLow => b.price - a.price
    case UrgentFirst => UrgentCompare(a, b)
    case Newest =>
      if a.isBoosted && !b.isBoosted then -1
      else if !a.isBoosted && b.isBoosted then 1
      else LocaleCompare(b.id, a.id)
  }

  /** The `Urgent First` comparator as written, `(b.isUrgent ? -1 : 1) - (a.isUrgent ? -1 : 1)`:
      its operands are the other way round from what the mode's name asks for. */
  function UrgentCompare(a: Listing, b: Listing): int {
    (if b.isUrgent then -1 else 1) - (if a.isUrgent then -1 else 1)
  }

  /** "`a` is placed before `b`". */
  function LessIn(mode: SortMode): (Listing, Listing) -> bool {
    (a, b) => Compare(mode, a, b) < 0
  }

  /** What each comparator means. */
  lemma CompareMeaning(a: Listing, b: Listing)
    ensures LessIn(PriceLowToHigh)(a, b) <==> a.price < b.price
    ensures LessIn(PriceHighToLow)(a, b) <==> a.price > b.price
    ensures LessIn(UrgentFirst)(a, b) <==> !a.isUrgent && b.isUrgent
    ensures LessIn(Newest)(a, b) <==>
      (a.isBoosted && !b.isBoosted) || (a.isBoosted == b.isBoosted && StrLt(b.id, a.id))
  {
    if b.id == a.id {
      StrLtIrreflexive(a.id);
    }
  }

  lemma NewestStrictWeak()
    ensures StrictWeakOrder(LessIn(Newest))
  {
    var lt := LessIn(Newest);
    forall a: Listing
      ensures !lt(a, a)
    {
      CompareMeaning(a, a);
      StrLtIrreflexive(a.id);
    }
    forall a: Listing, b: Listing | lt(a, b)
      ensures !lt(b, a)
    {
      CompareMeaning(a, b);
      CompareMeaning(b, a);
      if a.isBoosted == b.isBoosted {
        StrLtAsymmetric(b.id, a.id);
      }
    }
    forall a: Listing, b: Listing, c: Listing | lt(a, c)
      ensures lt(a, b) || lt(b, c)
    {
      CompareMeaning(a, c);
      CompareMeaning(a, b);
      CompareMeaning(b, c);
      if a.isBoosted == b.isBoosted && b.isBoosted == c.isBoosted && b.id != a.id {
        StrLtTotal(a.id, b.id);
        if StrLt(a.id, b.id) {
          StrLtTransitive(c.id, a.id, b.id);
        }
      }
    }
  }

  /** Every mode's comparator is consistent, so the stable sort has one well-defined result. */
  lemma LessStrictWeak(mode: SortMode)
    ensures StrictWeakOrder(LessIn(mode))
  {
    if mode == Newest {
      NewestStrictWeak();
    } else {
      forall a: Listing, b: Listing
        ensures LessIn(mode)(a, b) ==> !LessIn(mode)(b, a)
      {
        CompareMeaning(a, b);
        CompareMeaning(b, a);
      }
      forall a: Listing, b: Listing, c: Listing | LessIn(mode)(a, c)
        ensures LessIn(mode)(a, b) || LessIn(mode)(b, c)
      {
        CompareMeaning(a, c);
        CompareMeaning(a, b);
        CompareMeaning(b, c);
      }
    }
  }

  // ---------------------------------------------------------------------------
  // The feed
  // ---------------------------------------------------------------------------

  function InCategory(category: string): Listing -> bool {
    (l: Listing) => l.category == category
  }

  /** The lowercased title or description contains the (already lowercased) query. */
  predicate MatchesText(q: string, l: Listing) {
    Contains(ToLower(l.title), q) || Contains(ToLower(l.description), q)
  }

  function Matching(q: string): Listing -> bool {
    l => MatchesText(q, l)
  }

  /** The listings `filteredListings` keeps, before sorting. */
  function Candidates(listings: seq<Listing>, category: string, query: string): seq<Listing> {
    var byCategory := if category != AllCategories then Filter(listings, InCategory(category)) else listings;
    if query != "" then Filter(byCategory, Matching(ToLower(query))) else byCategory
  }

  /** `filteredListings`: filter by category and search text, then sort by the chosen mode. */
  function FilteredListings(listings: seq<Listing>, category: string, query: string, sortBy: string): (r: seq<Listing>)
    ensures multiset(r) == multiset(Candidates(listings, category, query))
  {
    SortBy(Candidates(listings, category, query), LessIn(ModeOf(sortBy)))
  }

  /** The selection criterion in one place: the category matches unless it is
      `All Categories`, and an empty query matches everything. */
  predicate IsSelected(category: string, query: string, l: Listing) {
    (category == AllCategories || l.category == category)
    && (query == "" || MatchesText(ToLower(query), l))
  }

  function Selected(category: string, query: string): Listing -> bool {
    l => IsSelected(category, query, l)
  }

  /** The two filters in sequence are one filter by the combined criterion. */
  lemma CandidatesAreSelected(listings: seq<Listing>, category: string, query: string)
    ensures Candidates(listings, category, query) == Filter(listings, Selected(category, query))
  {
    var sel := Selected(category, query);
    if category != AllCategories && query != "" {
      var p, q := InCategory(category), Matching(ToLower(query));
      FilterFilter(listings, p, q);
      assert forall i :: 0 <= i < |listings| ==> Both(p, q)(listings[i]) == sel(listings[i]);
      FilterExt(listings, Both(p, q), sel);
    } else if category != AllCategories {
      assert forall i :: 0 <= i < |listings| ==> InCategory(category)(listings[i]) == sel(listings[i]);
      FilterExt(listings, InCategory(category), sel);
    } else if query != "" {
      assert forall i :: 0 <= i < |listings| ==> Matching(ToLower(query))(listings[i]) == sel(listings[i]);
      FilterExt(listings, Matching(ToLower(query)), sel);
    } else {
      FilterAll(listings, sel);
    }
  }

  /** The feed is a permutation of the selected listings, and a listing appears in it
      exactly when it is in the store and meets both criteria. */
  lemma FeedIsSelection(listings: seq<Listing>, category: string, query: string, sortBy: string)
    ensures multiset(FilteredListings(listings, category, query, sortBy)) == multiset(Filter(listings, Selected(category, query)))
    ensures forall l :: l in FilteredListings(listings, category, query, sortBy) <==>
      l in listings && IsSelected(category, query, l)
  {
    CandidatesAreSelected(listings, category, query);
    var r := FilteredListings(listings, category, query, sortBy);
    var f := Filter(listings, Selected(category, query));
    assert multiset(r) == multiset(f);
    forall l
      ensures l in r <==> l in listings && IsSelected(category, query, l)
    {
      assert l in r <==> l in multiset(r);
      assert l in f <==> l in multiset(f);
      if l in f {
        var i :| 0 <= i < |f| && f[i] == l;
        assert Selected(category, query)(f[i]);
      }
      if l in listings && IsSelected(category, query, l) {
        var i :| 0 <= i < |listings| && listings[i] == l;
        assert Selected(category, query)(listings[i]);
      }
    }
  }

  /** The feed is ordered as its mode's comparator asks. */
  lemma FeedSorted(listings: seq<Listing>, category: string, query: string, sortBy: string)
    ensures SortedBy(FilteredListings(listings, category, query, sortBy), LessIn(ModeOf(sortBy)))
  {
    LessStrictWeak(ModeOf(sortBy));
    SortBySorted(Candidates(listings, category, query), LessIn(ModeOf(sortBy)));
  }

  /** `Price: Low to High` gives non-decreasing prices, `Price: High to Low` non-increasing ones. */
  lemma FeedPriceOrder(listings: seq<Listing>, category: string, query: string, sortBy: string)
    ensures var r := FilteredListings(listings, category, query, sortBy);
      && (sortBy == "Price: Low to High" ==> forall i, j :: 0 <= i < j < |r| ==> r[i].price <= r[j].price)
      && (sortBy == "Price: High to Low" ==> forall i, j :: 0 <= i < j < |r| ==> r[i].price >= r[j].price)
  {
    FeedSorted(listings, category, query, sortBy);
    var r := FilteredListings(listings, category, query, sortBy);
    forall i, j | 0 <= i < j < |r|
      ensures sortBy == "Price: Low to High" ==> r[i].price <= r[j].price
      ensures sortBy == "Price: High to Low" ==> r[i].price >= r[j].price
    {
      CompareMeaning(r[j], r[i]);
    }
  }

  /** Any other sort value puts every boosted listing ahead of every non-boosted one,
      and orders listings of equal boost by descending id. */
  lemma FeedDefaultOrder(listings: seq<Listing>, category: string, query: string, sortBy: string)
    requires ModeOf(sortBy) == Newest
    ensures var r := FilteredListings(listings, category, query, sortBy);
      forall i, j :: 0 <= i < j < |r| ==>
        (r[j].isBoosted ==> r[i].isBoosted)
        && (r[i].isBoosted == r[j].isBoosted ==> !StrLt(r[i].id, r[j].id))
  {
    FeedSorted(listings, category, query, sortBy);
    var r := FilteredListings(listings, category, query, sortBy);
    forall i, j | 0 <= i < j < |r|
      ensures r[j].isBoosted ==> r[i].isBoosted
      ensures r[i].isBoosted == r[j].isBoosted ==> !StrLt(r[i].id, r[j].id)
    {
      CompareMeaning(r[j], r[i]);
    }
  }

  function Urgent(): Listing -> bool { (l: Listing) => l.isUrgent }

  /** As written, `Urgent First` lists every non-urgent listing ahead of every urgent one,
      each group in the order the filters left it. */
  lemma FeedUrgentLast(listings: seq<Listing>, category: string, query: string)
    ensures var c := Candidates(listings, category, query);
      FilteredListings(listings, category, query, "Urgent First") == Filter(c, Not(Urgent())) + Filter(c, Urgent())
  {
    var c := Candidates(listings, category, query);
    forall a: Listing, b: Listing
      ensures LessIn(UrgentFirst)(a, b) <==> Not(Urgent())(a) && !Not(Urgent())(b)
    {
      CompareMeaning(a, b);
    }
    TwoGroupSort(c, Not(Urgent()), LessIn(UrgentFirst));
    FilterExt(c, Not(Not(Urgent())), Urgent());
  }

  /** So an urgent listing stored before a non-urgent one comes out behind it. */
  lemma FeedUrgentLastExample(u: Listing, n: Listing)
    requires u.isUrgent && !n.isUrgent
    ensures FilteredListings([u, n], AllCategories, "", "Urgent First") == [n, u]
  {
    var lt := LessIn(UrgentFirst);
    assert Candidates([u, n], AllCategories, "") == [u, n];
    assert lt(n, u);
    assert SortBy([n], lt) == [n];
    assert [u, n][1..] == [n];
  }

  /** The comparator the mode's name asks for, `(a.isUrgent ? -1 : 1) - (b.isUrgent ? -1 : 1)`. */
  function UrgentCompareCorrected(a: Listing, b: Listing): int {
    (if a.isUrgent then -1 else 1) - (if b.isUrgent then -1 else 1)
  }

  function UrgentLessCorrected(): (Listing, Listing) -> bool {
    (a: Listing, b: Listing) => UrgentCompareCorrected(a, b) < 0
  }

  /** The feed with the corrected `Urgent First` comparator; every other mode is unchanged. */
  function FilteredListingsCorrected(listings: seq<Listing>, category: string, query: string, sortBy: string): (r: seq<Listing>)
    ensures multiset(r) == multiset(Candidates(listings, category, query))
    ensures ModeOf(sortBy) != UrgentFirst ==> r == FilteredListings(listings, category, query, sortBy)
  {
    if ModeOf(sortBy) == UrgentFirst then SortBy(Candidates(listings, category, query), UrgentLessCorrected())
    else FilteredListings(listings, category, query, sortBy)
  }

  /** Corrected, `Urgent First` lists the urgent listings first and then the others, each
      group in the order the filters left it. */
  lemma FeedUrgentFirst(listings: seq<Listing>, category: string, query: string)
    ensures var c := Candidates(listings, category, query);
      FilteredListingsCorrected(listings, category, query, "Urgent First") == Filter(c, Urgent()) + Filter(c, Not(Urgent()))
  {
    forall a: Listing, b: Listing
      ensures UrgentLessCorrected()(a, b) <==> Urgent()(a) && !Urgent()(b)
    {
    }
    TwoGroupSort(Candidates(listings, category, query), Urgent(), UrgentLessCorrected());
  }

  // ---------------------------------------------------------------------------
  // Search suggestions
  // ---------------------------------------------------------------------------

  datatype SuggestionKind = CategorySuggestion | ListingSuggestion | AiSuggestion

  datatype Suggestion = Suggestion(text: string, kind: SuggestionKind, extra: Option<string>)

  predicate CategoryMatches(q: string, c: string) {
    c != AllCategories && Contains(ToLower(c), q)
  }

  function MatchingCategory(q: string): string -> bool {
    c => CategoryMatches(q, c)
  }

  predicate TitleMatches(q: string, l: Listing) {
    Contains(ToLower(l.title), q)
  }

  function MatchingTitle(q: string): Listing -> bool {
    l => TitleMatches(q, l)
  }

  function CategorySuggestions(cs: seq<string>): (r: seq<Suggestion>)
    ensures |r| == |cs|
    ensures forall i :: 0 <= i < |r| ==> r[i] == Suggestion(cs[i], CategorySuggestion, None)
  {
    seq(|cs|, i requires 0 <= i < |cs| => Suggestion(cs[i], CategorySuggestion, None))
  }

  /** A listing suggestion shows the title, with the price (`₦` and en-US grouping) as extra text. */
  function ListingSuggestions(ls: seq<Listing>): (r: seq<Suggestion>)
    ensures |r| == |ls|
    ensures forall i :: 0 <= i < |r| ==> r[i] == Suggestion(ls[i].title, ListingSuggestion, Some("₦" + LocaleInt(ls[i].price)))
  {
    seq(|ls|, i requires 0 <= i < |ls| => Suggestion(ls[i].title, ListingSuggestion, Some("₦" + LocaleInt(ls[i].price))))
  }

  function AskAi(query: string): Suggestion {
    Suggestion("Ask AI: \"" + query + "\"", AiSuggestion, None)
  }

  /** The categories other than `All Categories` whose lowercased name contains `q`. */
  function CategoryPart(q: string): seq<Suggestion> {
    CategorySuggestions(Filter(Categories, MatchingCategory(q)))
  }

  /** The first three listings whose lowercased title contains `q`. */
  function ListingPart(q: string, listings: seq<Listing>): seq<Suggestion> {
    ListingSuggestions(Take(Filter(listings, MatchingTitle(q)), 3))
  }

  function AiPart(query: string): seq<Suggestion> {
    if |query| > 2 then [AskAi(query)] else []
  }

  /** `searchSuggestions`: nothing for a blank query; otherwise the matching categories,
      then up to three listings whose title matches, then the assistant for queries
      longer than two characters. */
  function SearchSuggestions(query: string, listings: seq<Listing>): (r: seq<Suggestion>)
    ensures IsBlank(query) ==> r == []
    ensures !IsBlank(query) && |query| > 2 ==> |r| > 0 && r[|r| - 1] == AskAi(query)
  {
    if IsBlank(query) then []
    else CategoryPart(ToLower(query)) + ListingPart(ToLower(query), listings) + AiPart(query)
  }

  /** Category suggestions are exactly the real categories whose name contains the query. */
  lemma CategoryPartSpec(q: string)
    ensures forall i :: 0 <= i < |CategoryPart(q)| ==>
      CategoryPart(q)[i].kind == CategorySuggestion && CategoryPart(q)[i].text in Categories
      && CategoryMatches(q, CategoryPart(q)[i].text)
    ensures forall c :: c in Categories && CategoryMatches(q, c) ==>
      Suggestion(c, CategorySuggestion, None) in CategoryPart(q)
  {
    var cats := Filter(Categories, MatchingCategory(q));
    var r := CategoryPart(q);
    forall i | 0 <= i < |r|
      ensures r[i].kind == CategorySuggestion && r[i].text in Categories && CategoryMatches(q, r[i].text)
    {
      assert MatchingCategory(q)(cats[i]);
    }
    forall c | c in Categories && CategoryMatches(q, c)
      ensures Suggestion(c, CategorySuggestion, None) in r
    {
      var j :| 0 <= j < |Categories| && Categories[j] == c;
      assert MatchingCategory(q)(Categories[j]);
      var k :| 0 <= k < |cats| && cats[k] == c;
      assert r[k] == Suggestion(c, CategorySuggestion, None);
    }
  }

  /** The listing suggestions are the first three listings of the store whose lowercased
      title contains the query (all of them when there are fewer), in store order, each
      showing its title and grouped price. */
  lemma ListingPartSpec(q: string, listings: seq<Listing>)
    ensures |ListingPart(q, listings)| <= 3
    ensures var m := Filter(listings, MatchingTitle(q));
      |ListingPart(q, listings)| == (if |m| <= 3 then |m| else 3)
    ensures var m := Filter(listings, MatchingTitle(q));
      forall i :: 0 <= i < |ListingPart(q, listings)| ==>
        ListingPart(q, listings)[i] == Suggestion(m[i].title, ListingSuggestion, Some("₦" + LocaleInt(m[i].price)))
    ensures forall i :: 0 <= i < |ListingPart(q, listings)| ==>
      ListingPart(q, listings)[i].kind == ListingSuggestion
      && exists l :: l in listings && TitleMatches(q, l) && ListingPart(q, listings)[i].text == l.title
  {
    var all := Filter(listings, MatchingTitle(q));
    var titles := Take(all, 3);
    var r := ListingPart(q, listings);
    forall i | 0 <= i < |r|
      ensures r[i].kind == ListingSuggestion
      ensures exists l :: l in listings && TitleMatches(q, l) && r[i].text == l.title
    {
      assert titles[i] == all[i];
      assert MatchingTitle(q)(all[i]);
    }
  }

  /** A blank query has no suggestions; any other query has its category, listing
      and assistant suggestions in that order, the assistant exactly when the query is
      longer than two characters. */
  lemma SuggestionsSpec(query: string, listings: seq<Listing>)
    ensures IsBlank(query) ==> SearchSuggestions(query, listings) == []
    ensures !IsBlank(query) ==>
      SearchSuggestions(query, listings) == CategoryPart(ToLower(query)) + ListingPart(ToLower(query), listings) + AiPart(query)
    ensures !IsBlank(query) ==>
      ((exists i :: 0 <= i < |SearchSuggestions(query, listings)| && SearchSuggestions(query, listings)[i].kind == AiSuggestion)
       <==> |query| > 2)
  {
    if !IsBlank(query) {
      var cs, ls := CategoryPart(ToLower(query)), ListingPart(ToLower(query), listings);
      var r := SearchSuggestions(query, listings);
      CategoryPartSpec(ToLower(query));
      ListingPartSpec(ToLower(query), listings);
      if |query| > 2 {
        assert r[|r| - 1] == AskAi(query);
      } else {
        assert r == cs + ls;
        forall i | 0 <= i < |r|
          ensures r[i].kind != AiSuggestion
        {
          if i < |cs| { assert r[i] == cs[i]; } else { assert r[i] == ls[i - |cs|]; }
        }
      }
    }
  }

  // ---------------------------------------------------------------------------
  // Recently viewed
  // ---------------------------------------------------------------------------

  /** `(a, b) => b.timestamp - a.timestamp`: the most recent view first. */
  function LaterFirst(): (ViewRecord, ViewRecord) -> bool {
    (a: ViewRecord, b: ViewRecord) => b.timestamp - a.timestamp < 0
  }

  lemma LaterFirstStrictWeak()
    ensures StrictWeakOrder(LaterFirst())
  {
  }

  /** `.map(v => listings.find(l => l.id === v.listingId)).filter(l => !!l)`. */
  function Resolve(records: seq<ViewRecord>, listings: seq<Listing>): (r: seq<Listing>)
    ensures |r| <= |records|
    ensures forall i :: 0 <= i < |r| ==> r[i] in listings
    ensures forall i :: 0 <= i < |r| ==> exists j :: 0 <= j < |records| && records[j].listingId == r[i].id
  {
    if records == [] then []
    else
      var head := match FindByKey(listings, ListingId, records[0].listingId)
        case Some(l) => [l]
        case None => [];
      var rest := Resolve(records[1..], listings);
      assert forall i :: 0 <= i < |rest| ==> exists j :: 0 <= j < |records| && records[j].listingId == rest[i].id by {
        forall i | 0 <= i < |rest|
          ensures exists j :: 0 <= j < |records| && records[j].listingId == rest[i].id
        {
          var j :| 0 <= j < |records[1..]| && records[1..][j].listingId == rest[i].id;
          assert records[j + 1].listingId == rest[i].id;
        }
      }
      head + rest
  }

  /** A history record whose listing is still in the store. */
  function Found(listings: seq<Listing>): ViewRecord -> bool {
    (v: ViewRecord) => FindByKey(listings, ListingId, v.listingId).Some?
  }

  /** One record resolves to the first listing with its id, or to nothing when there is none. */
  lemma ResolveOne(v: ViewRecord, listings: seq<Listing>)
    ensures FindByKey(listings, ListingId, v.listingId).Some? ==>
      Resolve([v], listings) == [FindByKey(listings, ListingId, v.listingId).value]
    ensures FindByKey(listings, ListingId, v.listingId).None? ==> Resolve([v], listings) == []
  {
    assert [v][1..] == [];
  }

  lemma ResolveCons(v: ViewRecord, rest: seq<ViewRecord>, listings: seq<Listing>)
    ensures Resolve([v] + rest, listings) == Resolve([v], listings) + Resolve(rest, listings)
  {
    assert ([v] + rest)[0] == v && ([v] + rest)[1..] == rest;
    ResolveOne(v, listings);
  }

  /** Resolving works record by record: it distributes over concatenation. */
  lemma {:induction false} ResolveAppend(a: seq<ViewRecord>, b: seq<ViewRecord>, listings: seq<Listing>)
    ensures Resolve(a + b, listings) == Resolve(a, listings) + Resolve(b, listings)
  {
    if a == [] {
      assert a + b == b;
    } else {
      var x := a[0];
      calc {
        Resolve(a + b, listings);
        { assert a + b == [x] + (a[1..] + b); ResolveCons(x, a[1..] + b, listings); }
        Resolve([x], listings) + Resolve(a[1..] + b, listings);
        { ResolveAppend(a[1..], b, listings); }
        Resolve([x], listings) + (Resolve(a[1..], listings) + Resolve(b, listings));
        { ConcatAssoc(Resolve([x], listings), Resolve(a[1..], listings), Resolve(b, listings)); }
        (Resolve([x], listings) + Resolve(a[1..], listings)) + Resolve(b, listings);
        { assert a == [x] + a[1..]; ResolveCons(x, a[1..], listings); }
        Resolve(a, listings) + Resolve(b, listings);
      }
    }
  }

  /** The resolved listings are, in order, the first listing with each found record's id:
      one per record whose listing is still in the store. */
  lemma {:induction false} ResolveFound(records: seq<ViewRecord>, listings: seq<Listing>)
    ensures |Resolve(records, listings)| == |Filter(records, Found(listings))|
    ensures forall i :: 0 <= i < |Resolve(records, listings)| ==>
      FindByKey(listings, ListingId, Filter(records, Found(listings))[i].listingId) == Some(Resolve(records, listings)[i])
  {
    if records != [] {
      ResolveFound(records[1..], listings);
      var f := Filter(records[1..], Found(listings));
      var r := Resolve(records[1..], listings);
      if Found(listings)(records[0]) {
        assert Filter(records, Found(listings)) == [records[0]] + f;
        assert Resolve(records, listings) == [FindByKey(listings, ListingId, records[0].listingId).value] + r;
      } else {
        assert Filter(records, Found(listings)) == f;
        assert Resolve(records, listings) == r;
      }
    }
  }

  /** Removing history records whose listing is gone loses nothing else: when every
      record resolves, each listing appears in the order of its record. */
  lemma {:induction false} ResolveAllFound(records: seq<ViewRecord>, listings: seq<Listing>)
    requires forall j :: 0 <= j < |records| ==> FindByKey(listings, ListingId, records[j].listingId).Some?
    ensures |Resolve(records, listings)| == |records|
    ensures forall i :: 0 <= i < |records| ==> Resolve(records, listings)[i].id == records[i].listingId
  {
    if records != [] {
      ResolveAllFound(records[1..], listings);
    }
  }

  /** `recentlyViewedItems`: the history sorted most-recent first, resolved against the
      listings, at most eight. */
  function RecentlyViewed(history: seq<ViewRecord>, listings: seq<Listing>): (r: seq<Listing>)
    ensures |r| <= 8 && |r| <= |history|
    ensures forall i :: 0 <= i < |r| ==> r[i] in listings
  {
    var sorted := SortBy(history, LaterFirst());
    assert |sorted| == |multiset(sorted)| == |multiset(history)| == |history|;
    Take(Resolve(sorted, listings), 8)
  }

  /** The strip shows the listings of the eight most recent views whose listing is still
      in the store (all of them when there are fewer), most recent first: the `i`-th
      entry is the first listing with the id of the `i`-th such record, and those
      records' timestamps do not increase. */
  lemma RecentlyViewedSpec(history: seq<ViewRecord>, listings: seq<Listing>)
    ensures var shown := Filter(SortBy(history, LaterFirst()), Found(listings));
      && multiset(SortBy(history, LaterFirst())) == multiset(history)
      && |shown| == |Filter(history, Found(listings))|
      && (forall i, j :: 0 <= i < j < |shown| ==> shown[i].timestamp >= shown[j].timestamp)
    ensures var n := |Filter(history, Found(listings))|;
      |RecentlyViewed(history, listings)| == if n <= 8 then n else 8
    ensures var shown := Filter(SortBy(history, LaterFirst()), Found(listings));
      forall i :: 0 <= i < |RecentlyViewed(history, listings)| ==>
        FindByKey(listings, ListingId, shown[i].listingId) == Some(RecentlyViewed(history, listings)[i])
    ensures var r := RecentlyViewed(history, listings);
      && |r| <= 8 && |r| <= |history|
      && (forall i :: 0 <= i < |r| ==> r[i] in listings)
      && (forall i :: 0 <= i < |r| ==> exists j :: 0 <= j < |history| && history[j].listingId == r[i].id)
    ensures SortedBy(SortBy(history, LaterFirst()), LaterFirst())
  {
    var sorted := SortBy(history, LaterFirst());
    LaterFirstStrictWeak();
    SortBySorted(history, LaterFirst());
    var res := Resolve(sorted, listings);
    var r := RecentlyViewed(history, listings);
    var shown := Filter(sorted, Found(listings));
    FilterCountPerm(sorted, history, Found(listings));
    FilterSorted(sorted, Found(listings), LaterFirst());
    ResolveFound(sorted, listings);
    forall i, j | 0 <= i < j < |shown|
      ensures shown[i].timestamp >= shown[j].timestamp
    {
      assert !LaterFirst()(shown[j], shown[i]);
    }
    forall i | 0 <= i < |r|
      ensures FindByKey(listings, ListingId, shown[i].listingId) == Some(r[i])
    {
      assert r[i] == res[i];
    }
    assert |sorted| == |multiset(sorted)| == |multiset(history)| == |history|;
    forall i | 0 <= i < |r|
      ensures exists j :: 0 <= j < |history| && history[j].listingId == r[i].id
    {
      assert r[i] == res[i];
      var k :| 0 <= k < |sorted| && sorted[k].listingId == res[i].id;
      assert sorted[k] in multiset(history);
      var j :| 0 <= j < |history| && history[j] == sorted[k];
    }
  }
}
