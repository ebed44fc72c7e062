/**
 * The filter sidebar: domain check boxes, the two date inputs and "Clear All
 * Filters". It owns no state; every interaction reports the new filter values
 * to the page through one of two callbacks.
 */
module FilterSidebar {

  /** One call of a sidebar callback: `onDomainChange(domains)` or `onDateChange(start, end)`. */
  datatype Change =
    | DomainChange(domains: seq<string>)
    | DateChange(startDate: string, endDate: string)

  /** `list.filter((d) => d !== domain)`. */
  function Without(list: seq<string>, domain: string): seq<string>
    decreases |list|
  {
    if list == [] then []
    else if list[0] == domain then Without(list[1..], domain)
    else [list[0]] + Without(list[1..], domain)
  }

  /** `a` is obtained from `b` by deleting elements, keeping the order of the rest. */
  predicate IsSubsequence(a: seq<string>, b: seq<string>)
    decreases |b|
  {
    if a == [] then true
    else if b == [] then false
    else if a[0] == b[0] then IsSubsequence(a[1..], b[1..])
    else IsSubsequence(a, b[1..])
  }

  /** No domain is listed twice. */
  predicate NoDuplicates(list: seq<string>) {
    forall i, j | 0 <= i < j < |list| :: list[i] != list[j]
  }

  /** The selection `toggleDomain(domain)` hands to `onDomainChange`. */
  function Toggled(selected: seq<string>, domain: string): (r: seq<string>)
    ensures domain in r <==> domain !in selected
    ensures forall d | d != domain :: d in r <==> d in selected
  {
    WithoutMembers(selected, domain);
    if domain in selected then Without(selected, domain) else selected + [domain]
  }

  /** The callbacks fired by clicking a domain's check box. */
  function OnToggle(selected: seq<string>, domain: string): seq<Change> {
    [DomainChange(Toggled(selected, domain))]
  }

  /** The callbacks fired by editing the start date input. */
  function OnStartDateInput(value: string, endDate: string): seq<Change> {
    [DateChange(value, endDate)]
  }

  /** The callbacks fired by editing the end date input. */
  function OnEndDateInput(startDate: string, value: string): seq<Change> {
    [DateChange(startDate, value)]
  }

  /** The callbacks fired by "Clear All Filters". */
  function ClearFilters(): seq<Change> {
    [DomainChange([]), DateChange("", "")]
  }

  /** The `checked` attribute of a domain's check box. */
  predicate IsChecked(selected: seq<string>, domain: string) {
    domain in selected
  }

  lemma {:induction false} WithoutMembers(list: seq<string>, domain: string)
    ensures domain !in Without(list, domain)
    ensures forall d | d != domain :: d in Without(list, domain) <==> d in list
    decreases |list|
  {
    if list != [] {
      WithoutMembers(list[1..], domain);
      assert list == [list[0]] + list[1..];
    }
  }

  lemma {:induction false} WithoutIsSubsequence(list: seq<string>, domain: string)
    ensures IsSubsequence(Without(list, domain), list)
    decreases |list|
  {
    if list != [] {
      WithoutIsSubsequence(list[1..], domain);
      if list[0] != domain {
        assert ([list[0]] + Without(list[1..], domain))[1..] == Without(list[1..], domain);
      } else if Without(list[1..], domain) != [] {
        WithoutMembers(list[1..], domain);
        assert Without(list[1..], domain)[0] in Without(list[1..], domain);
      }
    }
  }

  lemma {:induction false} WithoutCounts(list: seq<string>, domain: string)
    ensures multiset(Without(list, domain))[domain] == 0
    ensures forall d | d != domain :: multiset(Without(list, domain))[d] == multiset(list)[d]
    decreases |list|
  {
    if list != [] {
      WithoutCounts(list[1..], domain);
      assert list == [list[0]] + list[1..];
    }
  }

  /**
   * Toggling a selected domain removes every occurrence of it and keeps every
   * other domain, as often as before and in the same order.
   */
  lemma ToggleSelectedRemoves(selected: seq<string>, domain: string)
    requires domain in selected
    ensures domain !in Toggled(selected, domain)
    ensures IsSubsequence(Toggled(selected, domain), selected)
    ensures forall d | d != domain :: multiset(Toggled(selected, domain))[d] == multiset(selected)[d]
  {
    WithoutIsSubsequence(selected, domain);
    WithoutCounts(selected, domain);
  }

  /** Toggling an unselected domain appends it: the old selection is a prefix of the new one. */
  lemma ToggleUnselectedAppends(selected: seq<string>, domain: string)
    requires domain !in selected
    ensures |Toggled(selected, domain)| == |selected| + 1
    ensures Toggled(selected, domain)[..|selected|] == selected
    ensures Toggled(selected, domain)[|selected|] == domain
  {
  }

  lemma {:induction false} WithoutAbsent(list: seq<string>, domain: string)
    requires domain !in list
    ensures Without(list, domain) == list
    decreases |list|
  {
    if list != [] {
      WithoutAbsent(list[1..], domain);
      assert list == [list[0]] + list[1..];
    }
  }

  lemma {:induction false} WithoutAppended(list: seq<string>, domain: string)
    ensures Without(list + [domain], domain) == Without(list, domain)
    decreases |list|
  {
    if list == [] {
      assert [domain][1..] == [];
    } else {
      assert (list + [domain])[1..] == list[1..] + [domain];
      WithoutAppended(list[1..], domain);
    }
  }

  /** Toggling an unselected domain twice gives back exactly the original selection. */
  lemma ToggleTwiceUnselected(selected: seq<string>, domain: string)
    requires domain !in selected
    ensures Toggled(Toggled(selected, domain), domain) == selected
  {
    WithoutAppended(selected, domain);
    WithoutAbsent(selected, domain);
  }

  /**
   * Toggling a selected domain twice gives back the same set of domains
   * (the domain moves to the end and loses its duplicates).
   */
  lemma ToggleTwiceSelected(selected: seq<string>, domain: string)
    requires domain in selected
    ensures (set d | d in Toggled(Toggled(selected, domain), domain)) == (set d | d in selected)
    ensures Toggled(Toggled(selected, domain), domain) == Without(selected, domain) + [domain]
  {
  }

  lemma {:induction false} WithoutNoDuplicates(list: seq<string>, domain: string)
    requires NoDuplicates(list)
    ensures NoDuplicates(Without(list, domain))
    decreases |list|
  {
    if list != [] {
      WithoutNoDuplicates(list[1..], domain);
      WithoutMembers(list[1..], domain);
      assert list[0] !in list[1..];
    }
  }

  /** A selection without duplicates stays without duplicates when a domain is toggled. */
  lemma ToggleKeepsNoDuplicates(selected: seq<string>, domain: string)
    requires NoDuplicates(selected)
    ensures NoDuplicates(Toggled(selected, domain))
  {
    if domain in selected {
      WithoutNoDuplicates(selected, domain);
    }
  }

  /** Clicking a check box flips that box and leaves every other box as it was. */
  lemma ToggleFlipsOneCheckbox(selected: seq<string>, domain: string, other: string)
    ensures IsChecked(Toggled(selected, domain), domain) == !IsChecked(selected, domain)
    ensures other != domain ==> IsChecked(Toggled(selected, domain), other) == IsChecked(selected, other)
  {
  }
}
