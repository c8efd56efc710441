/** The global search store of `SearchContext.jsx`: the query, the results and the busy
    flag, searched over a fixed list of three mock records. */
module SearchContext {
  import opened Seqs
  import opened Text

  /** One search record; `kind` is the record's `type` field. */
  datatype SearchItem = SearchItem(kind: string, id: string, title: string)

  /** The three records every search runs over. */
  function MockItems(): seq<SearchItem> {
    [
      SearchItem("order", "001", "Order #001"),
      SearchItem("product", "P001", "Product A"),
      SearchItem("customer", "C001", "John Doe")
    ]
  }

  /** Whether the lower-cased title holds the lower-cased query. */
  predicate TitleMatches(item: SearchItem, query: string) {
    Contains(ToLower(item.title), ToLower(query))
  }

  /** The query is ignored when it is empty or only whitespace. */
  predicate IsBlank(query: string) {
    Trim(query) == []
  }

  /** The mock records whose title matches the query, case-insensitively, in list order. */
  function MatchingItems(query: string): (r: seq<SearchItem>)
    ensures |r| <= |MockItems()|
    ensures Subseq(r, MockItems())
    ensures forall i :: 0 <= i < |r| ==> TitleMatches(r[i], query)
    ensures forall i :: 0 <= i < |MockItems()| && TitleMatches(MockItems()[i], query) ==> MockItems()[i] in r
    ensures forall it :: multiset(r)[it] == if TitleMatches(it, query) then multiset(MockItems())[it] else 0
  {
    FilterMultiset((it: SearchItem) => TitleMatches(it, query), MockItems());
    Filter((it: SearchItem) => TitleMatches(it, query), MockItems())
  }

  /** Case does not matter: a query and its lower-cased form find the same records. */
  lemma MatchingIgnoresCase(query: string)
    ensures MatchingItems(ToLower(query)) == MatchingItems(query)
  {
    ToLowerIdempotent(query);
    assert forall it :: TitleMatches(it, ToLower(query)) == TitleMatches(it, query);
    FilterSamePredicate((it: SearchItem) => TitleMatches(it, ToLower(query)),
                        (it: SearchItem) => TitleMatches(it, query), MockItems());
  }

  /** The empty query is a substring of every title, so it would match all three records;
      it never reaches the filter because it is blank. */
  lemma EmptyQueryIsBlank()
    ensures IsBlank("")
    ensures forall i :: 0 <= i < |MockItems()| ==> TitleMatches(MockItems()[i], "")
  {
    forall i | 0 <= i < |MockItems()|
      ensures TitleMatches(MockItems()[i], "")
    {
      assert OccursAt(ToLower(MockItems()[i].title), ToLower(""), 0);
    }
  }

  /** A query holding a character that the title lacks cannot occur in it. */
  lemma MissingCharacterNoMatch(haystack: string, needle: string, m: nat)
    requires m < |needle| && needle[m] !in haystack
    ensures !Contains(haystack, needle)
  {
    forall i | 0 <= i <= |haystack| - |needle|
      ensures !OccursAt(haystack, needle, i)
    {
      assert haystack[i..i + |needle|][m] == haystack[i + m];
    }
  }

  /** A lower-case letter shows up in a lower-cased title only where the title has it in
      either case. */
  lemma LowerLacks(t: string, c: char)
    requires 'a' <= c <= 'z'
    requires forall k :: 0 <= k < |t| ==> t[k] != c && t[k] as int != c as int - 32
    ensures c !in ToLower(t)
  {
    var l := ToLower(t);
    forall k | 0 <= k < |l|
      ensures l[k] != c
    {
      assert l[k] == LowerChar(t[k]);
    }
  }

  lemma LowerQueries()
    ensures ToLower("john") == "john" && ToLower(" john") == " john"
  {
    var l := ToLower("john");
    assert forall k :: 0 <= k < 4 ==> l[k] == LowerChar("john"[k]);
    var m := ToLower(" john");
    assert forall k :: 0 <= k < 5 ==> m[k] == LowerChar(" john"[k]);
  }

  /** Neither "Order #001" nor "Product A" has a `j` in either case. */
  lemma NoJInOrderOrProduct()
    ensures 'j' !in ToLower(MockItems()[0].title) && 'j' !in ToLower(MockItems()[1].title)
  {
    LowerLacks(MockItems()[0].title, 'j');
    LowerLacks(MockItems()[1].title, 'j');
  }

  lemma JohnInCustomer()
    ensures TitleMatches(MockItems()[2], "john")
    ensures !TitleMatches(MockItems()[2], " john")
  {
    var t := MockItems()[2].title;
    var l := ToLower(t);
    LowerQueries();
    assert l[..4] == "john" by {
      assert forall k :: 0 <= k < 4 ==> l[k] == LowerChar(t[k]);
    }
    assert OccursAt(l, "john", 0);
    forall i | 0 <= i <= |l| - 5
      ensures !OccursAt(l, " john", i)
    {
      assert l[i..i + 5][1] == l[i + 1] == LowerChar(t[i + 1]);
    }
  }

  /** "john" finds only the customer. */
  lemma SearchJohn()
    ensures MatchingItems("john") == [MockItems()[2]]
  {
    var s := MockItems();
    LowerQueries();
    NoJInOrderOrProduct();
    JohnInCustomer();
    MissingCharacterNoMatch(ToLower(s[0].title), "john", 0);
    MissingCharacterNoMatch(ToLower(s[1].title), "john", 0);
    var p := (it: SearchItem) => TitleMatches(it, "john");
    assert !p(s[0]) && !p(s[1]) && p(s[2]);
    assert s == [s[0]] + [s[1]] + [s[2]];
    FilterConcat(p, [s[0]] + [s[1]], [s[2]]);
    FilterConcat(p, [s[0]], [s[1]]);
  }

  /** A query with a leading space is not blank, yet finds nothing: the query is trimmed
      only for the blank test, not for the match. */
  lemma SearchSpaceJohn()
    ensures !IsBlank(" john")
    ensures MatchingItems(" john") == []
  {
    var s := MockItems();
    LowerQueries();
    NoJInOrderOrProduct();
    JohnInCustomer();
    MissingCharacterNoMatch(ToLower(s[0].title), " john", 1);
    MissingCharacterNoMatch(ToLower(s[1].title), " john", 1);
    var p := (it: SearchItem) => TitleMatches(it, " john");
    assert forall x :: x in s ==> !p(x);
    FilterEmpty(p, s);
    assert " john"[1] == 'j';
  }

  /** The store's state: `searchQuery`, `searchResults` and `isSearching`. */
  class SearchProvider {
    var searchQuery: string
    var searchResults: seq<SearchItem>
    var isSearching: bool

    constructor ()
      ensures searchQuery == "" && searchResults == [] && !isSearching
    {
      searchQuery := "";
      searchResults := [];
      isSearching := false;
    }

    /** Records the query as typed; a blank query empties the results without touching the
        busy flag, any other query raises the flag, filters and lowers the flag again. */
    method HandleSearch(query: string)
      modifies this
      ensures searchQuery == query
      ensures IsBlank(query) ==> searchResults == [] && isSearching == old(isSearching)
      ensures !IsBlank(query) ==> searchResults == MatchingItems(query) && !isSearching
    {
      searchQuery := query;
      if IsBlank(query) {
        searchResults := [];
        return;
      }
      isSearching := true;
      searchResults := MatchingItems(query);
      isSearching := false;
    }

    /** Empties the query and the results; the busy flag is left as it was. */
    method ClearSearch()
      modifies this
      ensures searchQuery == "" && searchResults == [] && isSearching == old(isSearching)
    {
      searchQuery := "";
      searchResults := [];
    }
  }
}
