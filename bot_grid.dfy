/**
 * The bot-marketplace listing: a chain of conjunctive filters over the list of
 * bots, each applied only when its option is set, followed by a sort chosen by
 * the `sortBy` key.
 */
module BotGrid {
  import opened Ordering

  datatype BotStatus = Active | Paused | Archived

  /** A marketplace bot. `isUserBot` is `None` when the field is absent. */
  datatype Bot = Bot(
    id: string,
    name: string,
    description: string,
    category: string,
    rating: real,
    reviews: nat,
    users: nat,
    performance: real,
    price: real,
    isFeatured: bool,
    isNew: bool,
    image: string,
    tags: seq<string>,
    createdAt: string,
    status: Option<BotStatus>,
    isUserBot: Option<bool>)

  /** The grid's inputs; `status` is `None` when no status is selected. */
  datatype Query = Query(
    searchQuery: string,
    category: string,
    sortBy: string,
    featured: bool,
    newReleases: bool,
    status: Option<BotStatus>,
    isUserBots: bool)

  // ---------------------------------------------------------------------------
  // Text search

  function LowerChar(c: char): char {
    if 'A' <= c <= 'Z' then (c as int + 32) as char else c
  }

  function ToLower(s: string): (r: string)
    ensures |r| == |s|
    ensures forall i :: 0 <= i < |s| ==> r[i] == LowerChar(s[i])
  {
    seq(|s|, i requires 0 <= i < |s| => LowerChar(s[i]))
  }

  /** `String.prototype.includes`: `sub` occurs in `s` starting at some position. */
  predicate Includes(s: string, sub: string)
    decreases |s|
  {
    if |sub| > |s| then false
    else if s[..|sub|] == sub then true
    else |s| > 0 && Includes(s[1..], sub)
  }

  /** `sub` occurs in `s` at position `i`. */
  predicate OccursAt(s: string, sub: string, i: int) {
    0 <= i <= |s| - |sub| && s[i..i + |sub|] == sub
  }

  /** The recursive search agrees with "there is an index at which `sub` occurs". */
  lemma {:induction false} IncludesAt(s: string, sub: string)
    ensures Includes(s, sub) <==> exists i :: OccursAt(s, sub, i)
    decreases |s|
  {
    if |sub| > |s| {
    } else if s[..|sub|] == sub {
      assert OccursAt(s, sub, 0);
    } else if |s| == 0 {
    } else {
      IncludesAt(s[1..], sub);
      if Includes(s[1..], sub) {
        var i :| OccursAt(s[1..], sub, i);
        assert s[i + 1..i + 1 + |sub|] == s[1..][i..i + |sub|];
        assert OccursAt(s, sub, i + 1);
      }
      if exists i :: OccursAt(s, sub, i) {
        var i :| OccursAt(s, sub, i);
        assert i != 0;
        assert s[1..][i - 1..i - 1 + |sub|] == s[i..i + |sub|];
        assert OccursAt(s[1..], sub, i - 1);
      }
    }
  }

  /** Case-insensitive match of the query against name, description or any tag. */
  predicate MatchesSearch(bot: Bot, query: string) {
    var q := ToLower(query);
    || Includes(ToLower(bot.name), q)
    || Includes(ToLower(bot.description), q)
    || exists tag :: tag in bot.tags && Includes(ToLower(tag), q)
  }

  // ---------------------------------------------------------------------------
  // Filters

  /** One filter step of the chain. */
  datatype Criterion =
    | Search(query: string)
    | InCategory(category: string)
    | FeaturedOnly
    | NewOnly
    | HasStatus(status: BotStatus)
    | UserBotsOnly

  predicate Holds(c: Criterion, bot: Bot) {
    match c
    case Search(query) => MatchesSearch(bot, query)
    case InCategory(category) => bot.category == category
    case FeaturedOnly => bot.isFeatured
    case NewOnly => bot.isNew
    case HasStatus(status) => bot.status == Some(status)
    case UserBotsOnly => bot.isUserBot == Some(true)
  }

  predicate AllHold(cs: seq<Criterion>, bot: Bot) {
    forall i :: 0 <= i < |cs| ==> Holds(cs[i], bot)
  }

  /** The filter steps that the query switches on, in the order they are applied. */
  function ActiveCriteria(q: Query): seq<Criterion> {
    When(q.searchQuery != "", Search(q.searchQuery))
    + When(q.category != "all", InCategory(q.category))
    + When(q.featured, FeaturedOnly)
    + When(q.newReleases, NewOnly)
    + When(q.status.Some?, HasStatus(if q.status.Some? then q.status.value else Active))
    + When(q.isUserBots, UserBotsOnly)
  }

  function When(active: bool, c: Criterion): seq<Criterion> {
    if active then [c] else []
  }

  /** `Array.prototype.filter` with the conjunction of `cs`: keeps every occurrence that passes, and only those. */
  function Select(s: seq<Bot>, cs: seq<Criterion>): (r: seq<Bot>)
    ensures |r| <= |s|
    ensures forall b :: b in r ==> b in s && AllHold(cs, b)
    ensures forall b :: multiset(r)[b] == if AllHold(cs, b) then multiset(s)[b] else 0
  {
    if s == [] then []
    else
      assert s == [s[0]] + s[1..];
      var rest := Select(s[1..], cs);
      if AllHold(cs, s[0]) then [s[0]] + rest else rest
  }

  /** A filter only deletes elements; it never reorders or duplicates them. */
  lemma {:induction false} SelectIsSubsequence(s: seq<Bot>, cs: seq<Criterion>)
    ensures IsSubsequence(Select(s, cs), s)
  {
    if s == [] {
    } else {
      SelectIsSubsequence(s[1..], cs);
      var rest := Select(s[1..], cs);
      if AllHold(cs, s[0]) {
        assert ([s[0]] + rest)[1..] == rest;
      } else {
        SubsequenceSkip(rest, s[1..], s[0]);
        assert [s[0]] + s[1..] == s;
      }
    }
  }

  /** Filtering the result of a filter is filtering once by both conditions. */
  lemma {:induction false} SelectExtend(s: seq<Bot>, cs: seq<Criterion>, c: Criterion)
    ensures Select(Select(s, cs), [c]) == Select(s, cs + [c])
  {
    forall b ensures AllHold(cs + [c], b) <==> AllHold(cs, b) && AllHold([c], b) {
      assert forall i :: 0 <= i < |cs| ==> (cs + [c])[i] == cs[i];
      assert (cs + [c])[|cs|] == c;
    }
    if s != [] {
      SelectExtend(s[1..], cs, c);
    }
  }

  lemma {:induction false} SelectNothing(s: seq<Bot>)
    ensures Select(s, []) == s
  {
    if s != [] {
      SelectNothing(s[1..]);
    }
  }

  /** The filtered list the grid sorts. */
  function FilteredBots(q: Query, bots: seq<Bot>): seq<Bot> {
    Select(bots, ActiveCriteria(q))
  }

  lemma AllHoldConcat(cs: seq<Criterion>, ds: seq<Criterion>, b: Bot)
    ensures AllHold(cs + ds, b) <==> AllHold(cs, b) && AllHold(ds, b)
  {
    if AllHold(cs, b) && AllHold(ds, b) {
      forall i | 0 <= i < |cs + ds| ensures Holds((cs + ds)[i], b) {
        if i >= |cs| { assert (cs + ds)[i] == ds[i - |cs|]; }
      }
    }
    if AllHold(cs + ds, b) {
      forall i | 0 <= i < |cs| ensures Holds(cs[i], b) {
        assert (cs + ds)[i] == cs[i];
      }
      forall i | 0 <= i < |ds| ensures Holds(ds[i], b) {
        assert (cs + ds)[|cs| + i] == ds[i];
      }
    }
  }

  lemma AllHoldSingle(c: Criterion, b: Bot)
    ensures AllHold([c], b) <==> Holds(c, b)
  {
    assert [c][0] == c;
  }

  /** The conjunction of the active filters, written out. */
  predicate Matches(q: Query, b: Bot) {
    && (q.searchQuery != "" ==> MatchesSearch(b, q.searchQuery))
    && (q.category != "all" ==> b.category == q.category)
    && (q.featured ==> b.isFeatured)
    && (q.newReleases ==> b.isNew)
    && (q.status.Some? ==> b.status == q.status)
    && (q.isUserBots ==> b.isUserBot == Some(true))
  }

  lemma {:induction false} ActiveCriteriaMeaning(q: Query, b: Bot)
    ensures AllHold(ActiveCriteria(q), b) <==> Matches(q, b)
  {
    var c1 := When(q.searchQuery != "", Search(q.searchQuery));
    var c2 := When(q.category != "all", InCategory(q.category));
    var c3 := When(q.featured, FeaturedOnly);
    var c4 := When(q.newReleases, NewOnly);
    var c5 := When(q.status.Some?, HasStatus(if q.status.Some? then q.status.value else Active));
    var c6 := When(q.isUserBots, UserBotsOnly);
    if q.searchQuery != "" { AllHoldSingle(Search(q.searchQuery), b); }
    if q.category != "all" { AllHoldSingle(InCategory(q.category), b); }
    if q.featured { AllHoldSingle(FeaturedOnly, b); }
    if q.newReleases { AllHoldSingle(NewOnly, b); }
    if q.status.Some? { AllHoldSingle(HasStatus(q.status.value), b); }
    if q.isUserBots { AllHoldSingle(UserBotsOnly, b); }
    AllHoldConcat(c1 + c2 + c3 + c4 + c5, c6, b);
    AllHoldConcat(c1 + c2 + c3 + c4, c5, b);
    AllHoldConcat(c1 + c2 + c3, c4, b);
    AllHoldConcat(c1 + c2, c3, b);
    AllHoldConcat(c1, c2, b);
  }

  /** A bot survives exactly when it is in the list and passes every active filter. */
  lemma SurvivorIff(q: Query, bots: seq<Bot>, b: Bot)
    ensures b in FilteredBots(q, bots) <==> b in bots && Matches(q, b)
  {
    ActiveCriteriaMeaning(q, b);
    assert multiset(FilteredBots(q, bots))[b] == if AllHold(ActiveCriteria(q), b) then multiset(bots)[b] else 0;
  }

  /** The filtered list is a subsequence of the source list. */
  lemma FilteredIsSubsequence(q: Query, bots: seq<Bot>)
    ensures IsSubsequence(FilteredBots(q, bots), bots)
  {
    SelectIsSubsequence(bots, ActiveCriteria(q));
  }

  /** With no query, category "all" and every flag off, no bot is dropped. */
  lemma NoFilterKeepsAll(q: Query, bots: seq<Bot>)
    requires q.searchQuery == "" && q.category == "all"
    requires !q.featured && !q.newReleases && q.status == None && !q.isUserBots
    ensures FilteredBots(q, bots) == bots
  {
    assert ActiveCriteria(q) == [];
    SelectNothing(bots);
  }

  // ---------------------------------------------------------------------------
  // Sorting

  /**
   * The comparator for each recognised key, as "may be placed in front of".
   * `nameLe` stands for `localeCompare(a, b) <= 0` and `dateOf` for parsing a date to milliseconds.
   */
  function SortOrder(sortBy: string, nameLe: (string, string) -> bool, dateOf: string -> int): Option<(Bot, Bot) -> bool> {
    match sortBy
    case "popular" => Some((a: Bot, b: Bot) => b.users - a.users <= 0)
    case "newest" => Some((a: Bot, b: Bot) => dateOf(b.createdAt) - dateOf(a.createdAt) <= 0)
    case "oldest" => Some((a: Bot, b: Bot) => dateOf(a.createdAt) - dateOf(b.createdAt) <= 0)
    case "name" => Some((a: Bot, b: Bot) => nameLe(a.name, b.name))
    case "rating" => Some((a: Bot, b: Bot) => b.rating - a.rating <= 0.0)
    case "performance" => Some((a: Bot, b: Bot) => b.performance - a.performance <= 0.0)
    case _ => None
  }

  lemma SortOrderIsTotalPreorder(sortBy: string, nameLe: (string, string) -> bool, dateOf: string -> int)
    requires TotalPreorder(nameLe)
    ensures SortOrder(sortBy, nameLe, dateOf).Some? ==> TotalPreorder(SortOrder(sortBy, nameLe, dateOf).value)
  {
    var order := SortOrder(sortBy, nameLe, dateOf);
    if order.Some? {
      var before := order.value;
      forall x, y ensures before(x, y) || before(y, x) {
        if sortBy == "name" { assert nameLe(x.name, y.name) || nameLe(y.name, x.name); }
      }
      forall x, y, z | before(x, y) && before(y, z) ensures before(x, z) {
        if sortBy == "name" {
          assert nameLe(x.name, y.name) && nameLe(y.name, z.name);
        }
      }
    }
  }

  /** `Array.prototype.sort` with a consistent comparator, as an in-place insertion sort. */
  method SortInPlace<T(!new)>(a: array<T>, before: (T, T) -> bool)
    requires TotalPreorder(before)
    modifies a
    ensures Sorted(a[..], before)
    ensures multiset(a[..]) == old(multiset(a[..]))
  {
    var i := 0;
    while i < a.Length
      invariant 0 <= i <= a.Length
      invariant forall k, l :: 0 <= k < l < i ==> before(a[k], a[l])
      invariant multiset(a[..]) == old(multiset(a[..]))
    {
      var j := i;
      while j > 0 && !before(a[j - 1], a[j])
        invariant 0 <= j <= i
        invariant forall k, l :: 0 <= k < l <= i && k != j && l != j ==> before(a[k], a[l])
        invariant forall l :: j < l <= i ==> before(a[j], a[l])
        invariant multiset(a[..]) == old(multiset(a[..]))
      {
        a[j - 1], a[j] := a[j], a[j - 1];
        j := j - 1;
      }
      i := i + 1;
    }
  }

  /** One `if (...) filteredBots = filteredBots.filter(...)` step, in terms of the criteria applied so far. */
  lemma {:induction false} FilterStep(bots: seq<Bot>, applied: seq<Criterion>, active: bool, c: Criterion)
    ensures (if active then Select(Select(bots, applied), [c]) else Select(bots, applied))
         == Select(bots, applied + When(active, c))
  {
    if active {
      SelectExtend(bots, applied, c);
    } else {
      assert applied + When(active, c) == applied;
    }
  }

  /** The filter chain: each active filter applied in turn to the previous step's list. */
  method ApplyFilters(q: Query, bots: seq<Bot>) returns (filtered: seq<Bot>)
    ensures filtered == FilteredBots(q, bots)
  {
    filtered := bots;
    ghost var applied: seq<Criterion> := [];
    SelectNothing(bots);

    ghost var c := Search(q.searchQuery);
    FilterStep(bots, applied, q.searchQuery != "", c);
    if q.searchQuery != "" {
      filtered := Select(filtered, [Search(q.searchQuery)]);
    }
    applied := applied + When(q.searchQuery != "", c);

    c := InCategory(q.category);
    FilterStep(bots, applied, q.category != "all", c);
    if q.category != "all" {
      filtered := Select(filtered, [InCategory(q.category)]);
    }
    applied := applied + When(q.category != "all", c);

    c := FeaturedOnly;
    FilterStep(bots, applied, q.featured, c);
    if q.featured {
      filtered := Select(filtered, [FeaturedOnly]);
    }
    applied := applied + When(q.featured, c);

    c := NewOnly;
    FilterStep(bots, applied, q.newReleases, c);
    if q.newReleases {
      filtered := Select(filtered, [NewOnly]);
    }
    applied := applied + When(q.newReleases, c);

    c := HasStatus(if q.status.Some? then q.status.value else Active);
    FilterStep(bots, applied, q.status.Some?, c);
    if q.status.Some? {
      filtered := Select(filtered, [HasStatus(q.status.value)]);
    }
    applied := applied + When(q.status.Some?, c);

    c := UserBotsOnly;
    FilterStep(bots, applied, q.isUserBots, c);
    if q.isUserBots {
      filtered := Select(filtered, [UserBotsOnly]);
    }
    applied := applied + When(q.isUserBots, c);

    assert [] + When(q.searchQuery != "", Search(q.searchQuery)) == When(q.searchQuery != "", Search(q.searchQuery));
  }

  /** The order each recognised key promises, stated on the fields themselves. */
  ghost predicate OrderedByKey(sortBy: string, nameLe: (string, string) -> bool, dateOf: string -> int, r: seq<Bot>) {
    && (sortBy == "popular" ==> forall i, j :: 0 <= i < j < |r| ==> r[i].users >= r[j].users)
    && (sortBy == "rating" ==> forall i, j :: 0 <= i < j < |r| ==> r[i].rating >= r[j].rating)
    && (sortBy == "performance" ==> forall i, j :: 0 <= i < j < |r| ==> r[i].performance >= r[j].performance)
    && (sortBy == "newest" ==> forall i, j :: 0 <= i < j < |r| ==> dateOf(r[i].createdAt) >= dateOf(r[j].createdAt))
    && (sortBy == "oldest" ==> forall i, j :: 0 <= i < j < |r| ==> dateOf(r[i].createdAt) <= dateOf(r[j].createdAt))
    && (sortBy == "name" ==> forall i, j :: 0 <= i < j < |r| ==> nameLe(r[i].name, r[j].name))
  }

  /** Sortedness under the comparator of a recognised key is the key order. */
  lemma SortedByKey(sortBy: string, nameLe: (string, string) -> bool, dateOf: string -> int, r: seq<Bot>)
    requires SortOrder(sortBy, nameLe, dateOf).Some? && Sorted(r, SortOrder(sortBy, nameLe, dateOf).value)
    ensures OrderedByKey(sortBy, nameLe, dateOf, r)
  {
  }

  /** Copies the list into an array, sorts that in place and reads it back. */
  method SortCopy<T(!new)>(s: seq<T>, before: (T, T) -> bool) returns (r: seq<T>)
    requires TotalPreorder(before)
    ensures Sorted(r, before)
    ensures multiset(r) == multiset(s)
  {
    var a := new T[|s|](i requires 0 <= i < |s| => s[i]);
    assert a[..] == s;
    SortInPlace(a, before);
    r := a[..];
  }

  /** The `switch (sortBy)`: sorts in place for a recognised key, leaves the list alone otherwise. */
  method SortByKey(filtered: seq<Bot>, sortBy: string, nameLe: (string, string) -> bool, dateOf: string -> int)
    returns (r: seq<Bot>)
    requires TotalPreorder(nameLe)
    ensures multiset(r) == multiset(filtered)
    ensures SortOrder(sortBy, nameLe, dateOf) == None ==> r == filtered
    ensures OrderedByKey(sortBy, nameLe, dateOf, r)
  {
    var order := SortOrder(sortBy, nameLe, dateOf);
    if order.None? {
      r := filtered;
    } else {
      SortOrderIsTotalPreorder(sortBy, nameLe, dateOf);
      r := SortCopy(filtered, order.value);
      SortedByKey(sortBy, nameLe, dateOf, r);
    }
  }

  /**
   * The listing: the filter chain, then the sort for the key. The result is a
   * permutation of the filtered list, ordered by the key, or the filtered list
   * itself for an unrecognised key.
   */
  method FetchBots(q: Query, bots: seq<Bot>, nameLe: (string, string) -> bool, dateOf: string -> int)
    returns (r: seq<Bot>)
    requires TotalPreorder(nameLe)
    ensures multiset(r) == multiset(FilteredBots(q, bots))
    ensures SortOrder(q.sortBy, nameLe, dateOf) == None ==> r == FilteredBots(q, bots)
    ensures OrderedByKey(q.sortBy, nameLe, dateOf, r)
  {
    var filtered := ApplyFilters(q, bots);
    r := SortByKey(filtered, q.sortBy, nameLe, dateOf);
  }
}
