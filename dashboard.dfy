/** The customer list of the dashboard: the search box and the status filter applied to
  * the customer summaries. */
module Dashboard {
  import opened Wrappers
  import opened Seqs
  import opened Records

  predicate IsUpper(c: char) { 'A' <= c <= 'Z' }

  /** `toLowerCase` on one character: ASCII capitals become small letters. */
  function LowerChar(c: char): (l: char)
    ensures !IsUpper(l)
    ensures IsUpper(c) ==> l as int == c as int + 32
    ensures !IsUpper(c) ==> l == c
  {
    if IsUpper(c) then (c as int + 32) as char else c
  }

  /** `toLowerCase`: every character lowered, nothing else changed. */
  function ToLower(s: string): (r: string)
    ensures |r| == |s|
    ensures forall i :: 0 <= i < |s| ==> !IsUpper(r[i])
    ensures forall i :: 0 <= i < |s| && !IsUpper(s[i]) ==> r[i] == s[i]
  {
    if s == [] then [] else [LowerChar(s[0])] + ToLower(s[1..])
  }

  /** Lowering twice is lowering once. */
  lemma {:induction false} ToLowerIdempotent(s: string)
    ensures ToLower(ToLower(s)) == ToLower(s)
  {
    if s != [] {
      ToLowerIdempotent(s[1..]);
      assert ToLower(s)[1..] == ToLower(s[1..]);
    }
  }

  /** `needle` occurs in `hay` starting at position `k`. */
  predicate OccursAt(hay: string, needle: string, k: int)
  {
    0 <= k && k + |needle| <= |hay| && hay[k..k + |needle|] == needle
  }

  /** `includes`: `needle` occurs in `hay` at some position. */
  function Contains(hay: string, needle: string): (r: bool)
    ensures r <==> exists k :: OccursAt(hay, needle, k)
    decreases |hay|
  {
    if |needle| > |hay| then false
    else if hay[..|needle|] == needle then
      assert OccursAt(hay, needle, 0);
      true
    else
      var rest := Contains(hay[1..], needle);
      assert !OccursAt(hay, needle, 0);
      assert forall k :: OccursAt(hay, needle, k) <==> k > 0 && OccursAt(hay[1..], needle, k - 1) by {
        forall k ensures OccursAt(hay, needle, k) <==> k > 0 && OccursAt(hay[1..], needle, k - 1) {
          if 1 <= k && k + |needle| <= |hay| {
            TailSlice(hay, k, k + |needle|);
          }
        }
      }
      assert rest ==> exists k :: OccursAt(hay, needle, k) by {
        if rest {
          var k :| OccursAt(hay[1..], needle, k);
          assert OccursAt(hay, needle, k + 1);
        }
      }
      rest
  }

  /** A slice of the tail is the slice of the whole shifted by one. */
  lemma TailSlice(s: string, a: int, b: int)
    requires 1 <= a <= b <= |s|
    ensures s[1..][a - 1..b - 1] == s[a..b]
  {
    forall m | 0 <= m < b - a ensures s[1..][a - 1..b - 1][m] == s[a..b][m] {
      assert s[1..][a - 1 + m] == s[a + m];
    }
  }

  /** The empty search term occurs in every text. */
  lemma ContainsEmpty(hay: string)
    ensures Contains(hay, "")
  {
    assert OccursAt(hay, "", 0);
  }

  /** The search: the term, lower-cased, occurs in the lower-cased name, company or email;
    * a missing company or email matches nothing. */
  predicate MatchesSearch(c: CustomerSummary, term: string)
  {
    var t := ToLower(term);
    || Contains(ToLower(c.customer.name), t)
    || (c.customer.company.Some? && Contains(ToLower(c.customer.company.value), t))
    || (c.customer.email.Some? && Contains(ToLower(c.customer.email.value), t))
  }

  /** The search ignores case: a term matches exactly when its lower-cased form does, and
    * the empty term matches every customer. */
  lemma SearchIgnoresCase(c: CustomerSummary, term: string)
    ensures MatchesSearch(c, term) <==> MatchesSearch(c, ToLower(term))
    ensures MatchesSearch(c, "")
  {
    ToLowerIdempotent(term);
    ContainsEmpty(ToLower(c.customer.name));
  }

  /** One customer kept by the list: a search match that, under the "overdue" filter, has
    * something overdue, and under the "upcoming" filter has a next payment. */
  predicate Shown(c: CustomerSummary, term: string, statusFilter: string)
  {
    if statusFilter == "overdue" then MatchesSearch(c, term) && c.totalOverdue > 0
    else if statusFilter == "upcoming" then MatchesSearch(c, term) && c.nextPaymentDate.Some?
    else MatchesSearch(c, term)
  }

  function ShownBy(term: string, statusFilter: string): CustomerSummary -> bool
  {
    c => Shown(c, term, statusFilter)
  }

  /** `filteredCustomers`: the customers the search and the status filter keep, in the
    * order of the list. */
  function FilteredCustomers(customers: seq<CustomerSummary>, term: string, statusFilter: string)
    : (r: seq<CustomerSummary>)
    ensures |r| <= |customers|
    ensures forall c :: c in r <==>
      && c in customers
      && MatchesSearch(c, term)
      && (statusFilter == "overdue" ==> c.totalOverdue > 0)
      && (statusFilter == "upcoming" ==> c.nextPaymentDate.Some?)
  {
    Filter(customers, ShownBy(term, statusFilter))
  }

  /** The list keeps the customers in their order, and keeps them all when the search is
    * empty and no status is selected. */
  lemma FilteredKeepsOrder(customers: seq<CustomerSummary>, term: string, statusFilter: string)
    ensures IsSubsequence(FilteredCustomers(customers, term, statusFilter), customers)
    ensures term == "" && statusFilter != "overdue" && statusFilter != "upcoming" ==>
      FilteredCustomers(customers, term, statusFilter) == customers
  {
    FilterIsSubsequence(customers, ShownBy(term, statusFilter));
    if term == "" && statusFilter != "overdue" && statusFilter != "upcoming" {
      forall c | c in customers ensures Shown(c, term, statusFilter) {
        SearchIgnoresCase(c, term);
      }
      FilterKeepsAll(customers, ShownBy(term, statusFilter));
    }
  }
}
