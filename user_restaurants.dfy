/** The customer-facing restaurant list (src/user/pages/pasindu/restaurent/RestaurentList.js):
    enabled restaurants only, narrowed by a name search. */
module UserRestaurants {
  import opened Js
  import opened Seqs
  import opened Restaurants
  import AdminRestaurants

  /** Lines 22-24: the restaurants of an array response whose `isEnabled` is truthy. */
  function EnabledRestaurants(body: ListBody): (r: seq<Restaurant>)
    ensures body.NotArray? ==> r == []
    ensures forall x :: x in r <==> x in ListOrEmpty(body) && Truthy(x.isEnabled)
  {
    if body.RestaurantArray? then Keep(body.restaurants, (x: Restaurant) => Truthy(x.isEnabled)) else []
  }

  /** Lines 35-37: the enabled restaurants whose name contains the query, ignoring case. */
  function Displayed(enabled: seq<Restaurant>, query: string): (r: seq<Restaurant>)
    ensures forall x :: x in r <==> x in enabled && NameMatches(x.name, query)
  {
    Keep(enabled, (x: Restaurant) => NameMatches(x.name, query))
  }

  /** An empty query shows every enabled restaurant. */
  lemma EmptyQueryShowsAll(enabled: seq<Restaurant>)
    ensures Displayed(enabled, "") == enabled
  {
    forall i | 0 <= i < |enabled| ensures NameMatches(enabled[i].name, "") {
      EmptyQueryMatches(enabled[i].name);
    }
    KeepAll(enabled, (x: Restaurant) => NameMatches(x.name, ""));
  }

  /** Displayed, enabled and response lists are each an ordered sub-list of
      the next, and the displayed list is the response filtered once by both tests. */
  lemma DisplayChain(body: ListBody, query: string)
    ensures IsSubsequence(EnabledRestaurants(body), ListOrEmpty(body))
    ensures IsSubsequence(Displayed(EnabledRestaurants(body), query), EnabledRestaurants(body))
    ensures Displayed(EnabledRestaurants(body), query)
         == Keep(ListOrEmpty(body), (x: Restaurant) => Truthy(x.isEnabled) && NameMatches(x.name, query))
  {
    var enabled := (x: Restaurant) => Truthy(x.isEnabled);
    var named := (x: Restaurant) => NameMatches(x.name, query);
    KeepIsSubsequence(ListOrEmpty(body), enabled);
    KeepIsSubsequence(EnabledRestaurants(body), named);
    KeepKeep(ListOrEmpty(body), enabled, named, (x: Restaurant) => Truthy(x.isEnabled) && NameMatches(x.name, query));
  }

  /** The customer list tests truthiness, not strict `true`: a restaurant whose
      flag is the number 1 is shown to customers but not under the manager's "enabled" filter. */
  lemma TruthyNotStrict(r: Restaurant)
    requires r.isEnabled == Some(JNum(1.0))
    ensures EnabledRestaurants(RestaurantArray([r])) == [r]
    ensures AdminRestaurants.FilterRestaurants([r], "", "enabled") == []
  {
    assert [r][1..] == [];
  }
}
