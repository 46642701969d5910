/** The restaurant record both restaurant lists receive. */
module Restaurants {
  import opened Js

  /** A restaurant as the list endpoints return it; `isEnabled` is whatever
      JSON value the record carries, or absent. */
  datatype Restaurant = Restaurant(id: string, name: Option<string>, isEnabled: Option<JsValue>)

  /** The body of a list response: an array of restaurants, or anything else. */
  datatype ListBody = RestaurantArray(restaurants: seq<Restaurant>) | NotArray

  /** `Array.isArray(data) ? data : []`. */
  function ListOrEmpty(body: ListBody): (r: seq<Restaurant>)
    ensures body.NotArray? ==> r == []
    ensures body.RestaurantArray? ==> r == body.restaurants
  {
    if body.RestaurantArray? then body.restaurants else []
  }
}
