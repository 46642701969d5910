/** The restaurant manager's list (src/admin/pages/pamaa/restaurent/RestaurantList.js):
    the search and status filters, the fetch guard and the enable/disable toggle. */
module AdminRestaurants {
  import opened Js
  import opened Seqs
  import opened Restaurants

  /** The name search step: skipped when the search term is empty. */
  predicate PassesSearch(term: string, r: Restaurant)
  {
    term == "" || NameMatches(r.name, term)
  }

  /** The status step: "all" passes everything; otherwise `r.isEnabled === (status === "enabled")`. */
  predicate PassesStatus(status: string, r: Restaurant)
  {
    status == "all" || r.isEnabled == Some(JBool(status == "enabled"))
  }

  /** The filter effect at lines 23-36: narrow by name when a term is given,
      then by status unless "all" is selected. */
  function FilterRestaurants(restaurants: seq<Restaurant>, term: string, status: string): (result: seq<Restaurant>)
    ensures |result| <= |restaurants|
    ensures forall r :: r in result <==> r in restaurants && PassesSearch(term, r) && PassesStatus(status, r)
  {
    var afterSearch := if term != "" then Keep(restaurants, (r: Restaurant) => NameMatches(r.name, term)) else restaurants;
    if status != "all" then Keep(afterSearch, (r: Restaurant) => r.isEnabled == Some(JBool(status == "enabled")))
    else afterSearch
  }

  /** The chain is one filter by the conjunction of both steps. */
  lemma {:induction false} FilterIsConjunction(restaurants: seq<Restaurant>, term: string, status: string)
    ensures FilterRestaurants(restaurants, term, status)
         == Keep(restaurants, (r: Restaurant) => PassesSearch(term, r) && PassesStatus(status, r))
  {
    var both := (r: Restaurant) => PassesSearch(term, r) && PassesStatus(status, r);
    var search := (r: Restaurant) => NameMatches(r.name, term);
    var byStatus := (r: Restaurant) => r.isEnabled == Some(JBool(status == "enabled"));
    if term != "" && status != "all" {
      KeepKeep(restaurants, search, byStatus, both);
    } else if term != "" {
      KeepCongruent(restaurants, search, both);
    } else if status != "all" {
      KeepCongruent(restaurants, byStatus, both);
    } else {
      KeepAll(restaurants, both);
    }
  }

  /** Applying the status step first and the search second gives the same list. */
  lemma FiltersCommute(restaurants: seq<Restaurant>, term: string, status: string)
    ensures FilterRestaurants(restaurants, term, status)
         == Keep(Keep(restaurants, (r: Restaurant) => PassesStatus(status, r)), (r: Restaurant) => PassesSearch(term, r))
  {
    FilterIsConjunction(restaurants, term, status);
    KeepKeep(restaurants, (r: Restaurant) => PassesStatus(status, r), (r: Restaurant) => PassesSearch(term, r),
             (r: Restaurant) => PassesSearch(term, r) && PassesStatus(status, r));
  }

  /** The shown list is the fetched list with some restaurants removed, order kept. */
  lemma FilterKeepsOrder(restaurants: seq<Restaurant>, term: string, status: string)
    ensures IsSubsequence(FilterRestaurants(restaurants, term, status), restaurants)
  {
    FilterIsConjunction(restaurants, term, status);
    KeepIsSubsequence(restaurants, (r: Restaurant) => PassesSearch(term, r) && PassesStatus(status, r));
  }

  /** With no search term and status "all", everything is shown. */
  lemma NoFilterShowsAll(restaurants: seq<Restaurant>)
    ensures FilterRestaurants(restaurants, "", "all") == restaurants
  {
  }

  /** A restaurant whose `isEnabled` is absent, or not a boolean, is shown only under "all". */
  lemma NonBooleanStatusOnlyUnderAll(r: Restaurant, status: string)
    requires !(r.isEnabled.Some? && r.isEnabled.value.JBool?)
    ensures PassesStatus(status, r) <==> status == "all"
  {
  }

  /** "enabled" keeps exactly the strict `true`s; any other value but "all" keeps exactly the strict `false`s. */
  lemma StatusSelects(r: Restaurant, status: string)
    requires status != "all"
    ensures status == "enabled" ==> (PassesStatus(status, r) <==> r.isEnabled == Some(JBool(true)))
    ensures status != "enabled" ==> (PassesStatus(status, r) <==> r.isEnabled == Some(JBool(false)))
  {
  }

  // ---------------------------------------------------------------------
  // Fetching

  /** What `fetchRestaurants` leads to. */
  datatype FetchStep =
    | LoginRequired(error: string)       // no request is sent
    | Request(userId: string)            // GET .../get-all-restaurants-id?userId=...

  /** Lines 41-47: a missing or empty stored `userId` stops the fetch with an error. */
  function StartFetch(storedUserId: Option<string>): (step: FetchStep)
    ensures step.Request? <==> Present(storedUserId)
    ensures step.Request? ==> step.userId == storedUserId.value
    ensures step.LoginRequired? ==> step.error == "You must be logged in to view your restaurants"
  {
    if Present(storedUserId) then Request(storedUserId.value)
    else LoginRequired("You must be logged in to view your restaurants")
  }

  /** How the request ends: a body, or an error carrying the server's `message`, if any. */
  datatype Reply = Body(body: ListBody) | Failed(serverMessage: Option<string>)

  /** The page state `fetchRestaurants` leaves behind. */
  datatype ListState = ListState(restaurants: seq<Restaurant>, shown: seq<Restaurant>, error: Option<string>)

  /** Lines 38-69: the stored list and the shown list both become the response
      array, or the empty list for a non-array body; a failed request keeps the
      lists and records the server's message, or a fixed one. */
  function FetchRestaurants(prior: ListState, reply: Reply): (next: ListState)
    ensures reply.Body? ==> next.restaurants == ListOrEmpty(reply.body) && next.shown == next.restaurants
    ensures reply.Body? && reply.body.NotArray? ==> next.restaurants == []
    ensures reply.Body? ==> next.error == prior.error
    ensures reply.Failed? ==> next.restaurants == prior.restaurants && next.shown == prior.shown
    ensures reply.Failed? ==> next.error == Some(if Present(reply.serverMessage) then reply.serverMessage.value else "Failed to load restaurants")
  {
    match reply
    case Body(body) => ListState(ListOrEmpty(body), ListOrEmpty(body), prior.error)
    case Failed(message) => prior.(error := Some(if Present(message) then message.value else "Failed to load restaurants"))
  }

  /** Lines 55-56 show the fetched list as is; the filter effect at lines
      23-36 then runs on it. What it settles to is an ordered sub-list of
      what was shown, and the same list when no filter is set. */
  lemma FetchedListSettles(prior: ListState, body: ListBody, term: string, status: string)
    ensures var next := FetchRestaurants(prior, Body(body));
      IsSubsequence(FilterRestaurants(next.restaurants, term, status), next.shown)
      && (term == "" && status == "all" ==> FilterRestaurants(next.restaurants, term, status) == next.shown)
  {
    var next := FetchRestaurants(prior, Body(body));
    FilterKeepsOrder(next.restaurants, term, status);
    NoFilterShowsAll(next.restaurants);
  }

  // ---------------------------------------------------------------------
  // Enable / disable

  /** The word the confirmation dialog uses: "disable" for a truthy `isEnabled`, else "enable". */
  function ToggleAction(isEnabled: Option<JsValue>): (action: string)
    ensures action == "disable" || action == "enable"
    ensures action == "disable" <==> Truthy(isEnabled)
  {
    if Truthy(isEnabled) then "disable" else "enable"
  }

  /** The PATCH sent to `/toggle-status/{id}`, carrying `{ isEnabled: !isEnabled }`. */
  datatype TogglePatch = TogglePatch(id: string, isEnabled: bool)

  /** Lines 71-94: the patch is sent only when the dialog is confirmed. */
  function ToggleRequest(id: string, isEnabled: Option<JsValue>, confirmed: bool): (patch: Option<TogglePatch>)
    ensures patch.Some? <==> confirmed
    ensures patch.Some? ==> patch.value.id == id && patch.value.isEnabled == !Truthy(isEnabled)
  {
    if confirmed then Some(TogglePatch(id, !Truthy(isEnabled))) else None
  }

  /** The dialog's word and the patch agree: "disable" sends `false`, "enable" sends `true`. */
  lemma ToggleActionMatchesPatch(id: string, isEnabled: Option<JsValue>)
    ensures var patch := ToggleRequest(id, isEnabled, true).value;
      (ToggleAction(isEnabled) == "disable" <==> !patch.isEnabled)
      && (ToggleAction(isEnabled) == "enable" <==> patch.isEnabled)
  {
  }

  /** Once the server applies the patch to a restaurant with a boolean flag,
      it moves from the "enabled" view to the "disabled" view or back. */
  lemma ToggleMovesBetweenViews(r: Restaurant, b: bool)
    requires r.isEnabled == Some(JBool(b))
    ensures var patched := r.(isEnabled := Some(JBool(ToggleRequest(r.id, r.isEnabled, true).value.isEnabled)));
      (PassesStatus("enabled", r) <==> PassesStatus("disabled", patched))
      && (PassesStatus("disabled", r) <==> PassesStatus("enabled", patched))
  {
  }
}
