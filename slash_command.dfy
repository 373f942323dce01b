/** The item filter of the editor's slash-command menu
    (src/components/tiptap/editor/slash-command.tsx). The item list
    (`slashItems`, ui/slash-items) is not part of this model and is a
    parameter; an item's command is an opaque number. */
module SlashCommand {
  import opened Strings

  datatype SlashItem = SlashItem(title: string, description: string, searchTerms: seq<string>, command: nat)

  const MaxItems: nat := 10

  /** `item.searchTerms.some(term => term.toLowerCase().includes(normalized))` */
  predicate SomeTermMatches(terms: seq<string>, normalized: string)
    decreases |terms|
  {
    terms != [] && (Contains(ToLower(terms[0]), normalized) || SomeTermMatches(terms[1..], normalized))
  }

  lemma {:induction false} SomeTermMatchesAt(terms: seq<string>, normalized: string)
    ensures SomeTermMatches(terms, normalized) <==> exists i :: 0 <= i < |terms| && Contains(ToLower(terms[i]), normalized)
    decreases |terms|
  {
    if terms != [] {
      SomeTermMatchesAt(terms[1..], normalized);
      assert forall i :: 1 <= i < |terms| ==> terms[i] == terms[1..][i - 1];
      if SomeTermMatches(terms[1..], normalized) {
        var j :| 0 <= j < |terms[1..]| && Contains(ToLower(terms[1..][j]), normalized);
        assert Contains(ToLower(terms[j + 1]), normalized);
      }
    }
  }

  /** The filter's test: the title, the description or a search term holds
      the query, ignoring letter case. */
  predicate Matches(item: SlashItem, normalized: string) {
    Contains(ToLower(item.title), normalized) || Contains(ToLower(item.description), normalized) ||
    SomeTermMatches(item.searchTerms, normalized)
  }

  /** `a` is `b` with some elements left out, in order. */
  predicate SubsequenceOf<T(==)>(a: seq<T>, b: seq<T>)
    decreases |b|
  {
    a == [] || (b != [] && ((a[0] == b[0] && SubsequenceOf(a[1..], b[1..])) || SubsequenceOf(a, b[1..])))
  }

  /** `items.filter(item => Matches(item, normalized))` */
  function Filter(items: seq<SlashItem>, normalized: string): (r: seq<SlashItem>)
    ensures |r| <= |items|
    ensures forall i :: 0 <= i < |r| ==> Matches(r[i], normalized)
    ensures forall x :: x in items && Matches(x, normalized) ==> x in r
    ensures SubsequenceOf(r, items)
    ensures forall x :: multiset(r)[x] == if Matches(x, normalized) then multiset(items)[x] else 0
  {
    if items == [] then []
    else
      assert items == [items[0]] + items[1..];
      if Matches(items[0], normalized) then [items[0]] + Filter(items[1..], normalized)
      else Filter(items[1..], normalized)
  }

  /** `s.slice(0, n)` */
  function Take<T>(s: seq<T>, n: nat): (r: seq<T>)
    ensures |r| == if |s| <= n then |s| else n
    ensures forall i :: 0 <= i < |r| ==> r[i] == s[i]
  {
    if |s| <= n then s else s[..n]
  }

  /** A prefix of a subsequence is a subsequence. */
  lemma {:induction false} TakeSubsequence<T>(a: seq<T>, b: seq<T>, n: nat)
    requires SubsequenceOf(a, b)
    ensures SubsequenceOf(Take(a, n), b)
    decreases |b|
  {
    if Take(a, n) != [] {
      assert b != [];
      if a[0] == b[0] && SubsequenceOf(a[1..], b[1..]) {
        if n == 0 {
        } else {
          TakeSubsequence(a[1..], b[1..], n - 1);
          assert Take(a, n)[1..] == Take(a[1..], n - 1);
        }
      } else {
        TakeSubsequence(a, b[1..], n);
      }
    }
  }

  lemma SubsequenceRefl<T>(a: seq<T>)
    ensures SubsequenceOf(a, a)
  {
  }

  /** The Suggestion `items` callback. */
  function Items(slashItems: seq<SlashItem>, query: string): seq<SlashItem> {
    var normalized := ToLower(query);
    if normalized == "" then Take(slashItems, MaxItems)
    else Take(Filter(slashItems, normalized), MaxItems)
  }

  /** At most ten items, in their original order, each one matching; with an
      empty query the first ten items. */
  lemma ItemsProperties(slashItems: seq<SlashItem>, query: string)
    ensures |Items(slashItems, query)| <= MaxItems
    ensures SubsequenceOf(Items(slashItems, query), slashItems)
    ensures query == "" ==> Items(slashItems, query) == Take(slashItems, MaxItems)
    ensures ToLower(query) != "" ==>
      forall i :: 0 <= i < |Items(slashItems, query)| ==> Matches(Items(slashItems, query)[i], ToLower(query))
  {
    var normalized := ToLower(query);
    if normalized == "" {
      SubsequenceRefl(slashItems);
      TakeSubsequence(slashItems, slashItems, MaxItems);
    } else {
      TakeSubsequence(Filter(slashItems, normalized), slashItems, MaxItems);
    }
  }

  /** Nothing that matches is dropped unless ten matches come first. */
  lemma ItemsMaximal(slashItems: seq<SlashItem>, query: string)
    requires ToLower(query) != ""
    ensures var matches := Filter(slashItems, ToLower(query));
      |matches| <= MaxItems ==> Items(slashItems, query) == matches
    ensures var matches := Filter(slashItems, ToLower(query));
      |matches| > MaxItems ==> Items(slashItems, query) == matches[..MaxItems]
    ensures forall x :: x in slashItems && Matches(x, ToLower(query)) && |Filter(slashItems, ToLower(query))| <= MaxItems ==>
      x in Items(slashItems, query)
  {
  }

  /** A query and its lower-case form select the same items. */
  lemma QueryCaseInsensitive(slashItems: seq<SlashItem>, query: string)
    ensures Items(slashItems, ToLower(query)) == Items(slashItems, query)
  {
    ToLowerIdempotent(query);
  }
}
