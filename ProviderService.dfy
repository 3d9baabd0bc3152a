/**
 * The backend provider directory: profile lookup, the eight-field profile
 * update, the four-way search dispatch on optional type/location filters,
 * and the unimplemented review lookup.
 */
module ProviderService {
  import opened Wrappers
  import opened Text
  import opened Entities

  /** `getProfile(id)`: `findById(id).orElseThrow(...)`. */
  function GetProfile(store: map<int, ServiceProvider>, id: int): (r: Result<ServiceProvider, Exception>)
    ensures r.Success? <==> id in store
    ensures r.Success? ==> r.value == store[id]
    ensures r.Failure? ==> r.error == ResourceNotFound("Provider not found")
  {
    if id in store then Success(store[id]) else Failure(ResourceNotFound("Provider not found"))
  }

  /**
   * The eight setters of `updateProfile`: the stored record takes the incoming
   * record's profile fields and keeps its own id and remaining columns.
   */
  function CopyProfile(stored: ServiceProvider, incoming: ServiceProvider): (r: ServiceProvider)
    ensures r.providerId == stored.providerId && r.other == stored.other
    ensures r == incoming.(providerId := stored.providerId, other := stored.other)
  {
    stored.(fullName := incoming.fullName)
          .(email := incoming.email)
          .(mobile := incoming.mobile)
          .(serviceType := incoming.serviceType)
          .(experience := incoming.experience)
          .(price := incoming.price)
          .(availability := incoming.availability)
          .(location := incoming.location)
  }

  /** Copying a profile onto itself, or copying the same profile twice, changes nothing more. */
  lemma CopyProfileIdempotent(stored: ServiceProvider, incoming: ServiceProvider)
    ensures CopyProfile(CopyProfile(stored, incoming), incoming) == CopyProfile(stored, incoming)
    ensures CopyProfile(stored, stored) == stored
  {
  }

  /** Whether a provider passes the filters that are present (a null filter constrains nothing). */
  predicate MatchesFilters(p: ServiceProvider, serviceType: Option<string>, location: Option<string>) {
    && (serviceType.Some? ==> ContainsIgnoreCase(p.serviceType, serviceType.value))
    && (location.Some? ==> ContainsIgnoreCase(p.location, location.value))
  }

  /**
   * `searchProviders(type, location)`: one derived query per combination of
   * non-null filters, `findAll` when both are null. Whatever the branch, the
   * result is exactly the stored providers that pass the present filters.
   */
  function SearchProviders(store: map<int, ServiceProvider>, serviceType: Option<string>, location: Option<string>)
    : (r: map<int, ServiceProvider>)
    ensures r.Keys <= store.Keys
    ensures forall id :: id in r ==> r[id] == store[id]
    ensures forall id :: id in store ==> (id in r <==> MatchesFilters(store[id], serviceType, location))
  {
    if serviceType.Some? && location.Some? then
      map id | id in store && ContainsIgnoreCase(store[id].serviceType, serviceType.value)
                           && ContainsIgnoreCase(store[id].location, location.value) :: store[id]
    else if serviceType.Some? then
      map id | id in store && ContainsIgnoreCase(store[id].serviceType, serviceType.value) :: store[id]
    else if location.Some? then
      map id | id in store && ContainsIgnoreCase(store[id].location, location.value) :: store[id]
    else
      store
  }

  /** An empty filter matches every provider: `LIKE '%%'` accepts any value. */
  lemma EmptyFilterMatchesAll(store: map<int, ServiceProvider>)
    ensures SearchProviders(store, Some(""), Some("")) == store
  {
    var r := SearchProviders(store, Some(""), Some(""));
    forall id | id in store ensures id in r {
      assert OccursAt(AsciiUpperString(store[id].serviceType), AsciiUpperString(""), 0);
      assert OccursAt(AsciiUpperString(store[id].location), AsciiUpperString(""), 0);
    }
  }

  /** A filter as the user might type it in lower case; an absent filter stays absent. */
  function LowerFilter(filter: Option<string>): (r: Option<string>)
    ensures r.Some? <==> filter.Some?
  {
    match filter
    case None => None
    case Some(s) => Some(AsciiLowerString(s))
  }

  /**
   * Filtering is case-insensitive in every branch: lower-casing whichever
   * filters are present selects the same providers.
   */
  lemma SearchIgnoresFilterCase(store: map<int, ServiceProvider>, serviceType: Option<string>, location: Option<string>)
    ensures SearchProviders(store, LowerFilter(serviceType), LowerFilter(location))
         == SearchProviders(store, serviceType, location)
  {
    if serviceType.Some? {
      UpperOfLower(serviceType.value);
    }
    if location.Some? {
      UpperOfLower(location.value);
    }
    var lowered := SearchProviders(store, LowerFilter(serviceType), LowerFilter(location));
    var plain := SearchProviders(store, serviceType, location);
    forall id | id in store
      ensures MatchesFilters(store[id], LowerFilter(serviceType), LowerFilter(location))
          == MatchesFilters(store[id], serviceType, location)
    {
    }
    assert lowered.Keys == plain.Keys;
  }

  lemma UpperOfLower(s: string)
    ensures AsciiUpperString(AsciiLowerString(s)) == AsciiUpperString(s)
  {
  }

  /** `getProviderReviews(providerId)`: always throws. */
  function ProviderReviews(providerId: int): (r: Result<(), Exception>)
    ensures r.Failure? && r.error.UnsupportedOperation?
  {
    Failure(UnsupportedOperation("Unimplemented method 'getProviderReviews'"))
  }

  /** The service over its repository. */
  class ProviderDirectory {
    var providers: map<int, ServiceProvider>

    /** Every provider is stored under its own id. */
    ghost predicate Valid()
      reads this
    {
      forall id :: id in providers ==> providers[id].providerId == id
    }

    constructor (initial: map<int, ServiceProvider>)
      requires forall id :: id in initial ==> initial[id].providerId == id
      ensures Valid()
      ensures providers == initial
    {
      providers := initial;
    }

    /**
     * `updateProfile(id, updatedProvider)`: load (not found throws before
     * anything is saved), copy the eight fields, save under the same id.
     */
    method UpdateProfile(id: int, incoming: ServiceProvider) returns (r: Result<ServiceProvider, Exception>)
      requires Valid()
      modifies this
      ensures Valid()
      ensures r.Success? ==> r.value.providerId == id
      ensures r.Failure? <==> id !in old(providers)
      ensures r.Failure? ==> r.error == ResourceNotFound("Provider not found") && providers == old(providers)
      ensures r.Success? ==> && r.value == CopyProfile(old(providers)[id], incoming)
                             && providers == old(providers)[id := r.value]
    {
      var loaded := GetProfile(providers, id);
      if loaded.Failure? {
        return Failure(loaded.error);
      }
      var provider := CopyProfile(loaded.value, incoming);
      providers := providers[id := provider];
      r := Success(provider);
    }
  }
}
