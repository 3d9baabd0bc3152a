/**
 * The user's provider search page: the search query built from the two
 * filters, the projection of fetched providers, the selected-provider
 * lookup, and the booking handler's guard chain, time normalisation,
 * request payload and post-success reset.
 */
module SearchServices {
  import opened Wrappers
  import opened Text
  import opened Entities
  import opened Sessions

  /** The page's `Provider` type: the seven fields it declares. */
  datatype Provider = Provider(
    providerId: int,
    fullName: string,
    serviceType: string,
    experience: int,
    price: int,
    availability: string,
    location: string)

  /** One fetched provider reduced to the declared fields. */
  function ToProvider(p: ServiceProvider): Provider {
    Provider(p.providerId, p.fullName, p.serviceType, p.experience, p.price, p.availability, p.location)
  }

  /** `(data || []).map(p => ({ providerId: p.providerId, ... }))` */
  function ToProviders(data: seq<ServiceProvider>): (r: seq<Provider>)
    ensures |r| == |data|
    ensures forall i :: 0 <= i < |r| ==> r[i] == ToProvider(data[i])
  {
    if data == [] then [] else [ToProvider(data[0])] + ToProviders(data[1..])
  }

  /**
   * The `URLSearchParams` of `fetchProviders`: `type` unless the service
   * filter is empty or "all", then `location` unless it is empty.
   */
  method SearchParams(serviceType: string, userLocation: string) returns (params: seq<(string, string)>)
    ensures |params| <= 2
    ensures ("type", serviceType) in params <==> serviceType != "" && serviceType != "all"
    ensures ("location", userLocation) in params <==> userLocation != ""
    ensures forall i :: 0 <= i < |params| ==> params[i] == ("type", serviceType) || params[i] == ("location", userLocation)
    ensures |params| == 2 ==> params[0].0 == "type" && params[1].0 == "location"
  {
    params := [];
    if serviceType != "" && serviceType != "all" {
      params := params + [("type", serviceType)];
    }
    if userLocation != "" {
      params := params + [("location", userLocation)];
    }
  }

  /** The value the backend's `@RequestParam(required = false)` receives for `key`. */
  function ParamValue(params: seq<(string, string)>, key: string): (r: Option<string>)
    ensures r.Some? ==> (key, r.value) in params
    ensures r.None? ==> forall i :: 0 <= i < |params| ==> params[i].0 != key
  {
    if params == [] then None
    else if params[0].0 == key then Some(params[0].1)
    else ParamValue(params[1..], key)
  }

  /**
   * The search the page asks of the backend: the "all" choice and the empty
   * filters reach the service as absent (null) filters.
   */
  lemma SearchParamsReachService(serviceType: string, userLocation: string, params: seq<(string, string)>)
    requires |params| <= 2
    requires ("type", serviceType) in params <==> serviceType != "" && serviceType != "all"
    requires ("location", userLocation) in params <==> userLocation != ""
    requires forall i :: 0 <= i < |params| ==> params[i] == ("type", serviceType) || params[i] == ("location", userLocation)
    ensures ParamValue(params, "type") == if serviceType == "" || serviceType == "all" then None else Some(serviceType)
    ensures ParamValue(params, "location") == if userLocation == "" then None else Some(userLocation)
  {
    var t := ParamValue(params, "type");
    if t.Some? {
      assert ("type", t.value) in params;
    }
    if serviceType != "" && serviceType != "all" {
      assert ("type", serviceType) in params;
    }
    var l := ParamValue(params, "location");
    if l.Some? {
      assert ("location", l.value) in params;
    }
    if userLocation != "" {
      assert ("location", userLocation) in params;
    }
  }

  /** The index of the first provider with the given id, or `|ps|` when there is none. */
  function FirstWithId(ps: seq<Provider>, id: int): (k: nat)
    ensures k <= |ps|
    ensures forall j :: 0 <= j < k ==> ps[j].providerId != id
    ensures k < |ps| ==> ps[k].providerId == id
  {
    if ps == [] then 0
    else if ps[0].providerId == id then 0
    else 1 + FirstWithId(ps[1..], id)
  }

  /** `providers.find(p => p.providerId === selectedProviderId) || null` */
  function SelectedProvider(ps: seq<Provider>, selectedId: Option<int>): (r: Option<Provider>)
    ensures r.Some? ==> selectedId.Some? && r.value.providerId == selectedId.value && r.value in ps
    ensures r.None? <==> selectedId.None? || forall i :: 0 <= i < |ps| ==> ps[i].providerId != selectedId.value
    ensures r.Some? ==> r.value == ps[FirstWithId(ps, selectedId.value)]
  {
    if selectedId.None? then None
    else
      var k := FirstWithId(ps, selectedId.value);
      if k < |ps| then Some(ps[k]) else None
  }

  /** The time field's expected form, `/^\d{2}:\d{2}$/`. */
  predicate IsHourMinute(t: string) {
    |t| == 5 && IsDigit(t[0]) && IsDigit(t[1]) && t[2] == ':' && IsDigit(t[3]) && IsDigit(t[4])
  }

  /** `HH:mm` becomes `HH:mm:ss` by appending ":00"; any other string is sent as it is. */
  function NormalizeTime(t: string): (r: string)
    ensures t <= r
    ensures r == t <==> !IsHourMinute(t)
    ensures r != t ==> r[|t|..] == ":00"
    ensures !IsHourMinute(r)
  {
    if IsHourMinute(t) then t + ":00" else t
  }

  /** Normalising twice is normalising once. */
  lemma NormalizeTimeIdempotent(t: string)
    ensures NormalizeTime(NormalizeTime(t)) == NormalizeTime(t)
  {
  }

  /** `selectedProvider.serviceType || serviceType || "Service"` */
  function PayloadServiceType(providerType: string, filterType: string): (r: string)
    ensures r != ""
    ensures providerType != "" ==> r == providerType
    ensures providerType == "" && filterType != "" ==> r == filterType
    ensures providerType == "" && filterType == "" ==> r == "Service"
  {
    if providerType != "" then providerType
    else if filterType != "" then filterType
    else "Service"
  }

  /** Where `handleBooking` stopped. */
  datatype BookingAttempt = NotLoggedIn | NoProvider | MissingDateOrTime | RequestFailed | Created

  class SearchPage {
    /** The session read once from storage when the page mounts. */
    const session: Option<LoginSession>
    var serviceType: string
    var userLocation: string
    var providers: seq<Provider>
    var loading: bool
    var selectedProviderId: Option<int>
    var selectedDate: string
    var selectedTime: string
    /** The search queries and booking requests sent to the backend, in order. */
    var searches: seq<seq<(string, string)>>
    var posted: seq<BookingRequest>

    constructor (session: Option<LoginSession>)
      ensures this.session == session
      ensures serviceType == "" && userLocation == "" && providers == [] && !loading
      ensures selectedProviderId == None && selectedDate == "" && selectedTime == ""
      ensures searches == [] && posted == []
    {
      this.session := session;
      serviceType, userLocation := "", "";
      providers := [];
      loading := false;
      selectedProviderId := None;
      selectedDate, selectedTime := "", "";
      searches, posted := [], [];
    }

    /**
     * `fetchProviders`: send the query; on a 2xx response store the projected
     * list (a null body counts as empty), otherwise keep the old list.
     */
    method FetchProviders(response: Option<Option<seq<ServiceProvider>>>)
      modifies this`providers, this`loading, this`searches
      ensures |searches| == |old(searches)| + 1 && searches[..|old(searches)|] == old(searches)
      ensures var q := searches[|searches| - 1];
        && ParamValue(q, "type") == (if serviceType == "" || serviceType == "all" then None else Some(serviceType))
        && ParamValue(q, "location") == (if userLocation == "" then None else Some(userLocation))
      ensures providers == if response.Some? then ToProviders(response.value.GetOr([])) else old(providers)
      ensures !loading
    {
      loading := true;
      var params := SearchParams(serviceType, userLocation);
      SearchParamsReachService(serviceType, userLocation, params);
      searches := searches + [params];
      if response.Some? {
        providers := ToProviders(response.value.GetOr([]));
      }
      loading := false;
    }

    /**
     * `handleBooking`: three guards in order (session, provider, date and
     * time), then the POST; `accepted` says whether the backend answered 2xx
     * with a JSON body. Only then are the date, time and selection cleared.
     */
    method HandleBooking(accepted: bool) returns (outcome: BookingAttempt)
      modifies this`posted, this`selectedDate, this`selectedTime, this`selectedProviderId
      ensures outcome == NotLoggedIn <==> !LoggedInAsUser(session)
      ensures outcome == NoProvider <==>
                LoggedInAsUser(session) && SelectedProvider(providers, old(selectedProviderId)).None?
      ensures outcome == MissingDateOrTime <==>
                outcome !in {NotLoggedIn, NoProvider} && (old(selectedDate) == "" || old(selectedTime) == "")
      ensures outcome in {NotLoggedIn, NoProvider, MissingDateOrTime} ==> posted == old(posted)
      ensures outcome in {RequestFailed, Created} ==>
                var p := SelectedProvider(providers, old(selectedProviderId)).value;
                posted == old(posted) + [BookingRequest(
                  session.value.id, p.providerId, PayloadServiceType(p.serviceType, serviceType),
                  old(selectedDate), NormalizeTime(old(selectedTime)))]
      ensures outcome == Created <==> outcome !in {NotLoggedIn, NoProvider, MissingDateOrTime} && accepted
      ensures outcome == Created ==> selectedDate == "" && selectedTime == "" && selectedProviderId == None
      ensures outcome != Created ==>
                && selectedDate == old(selectedDate) && selectedTime == old(selectedTime)
                && selectedProviderId == old(selectedProviderId)
    {
      if !LoggedInAsUser(session) {
        return NotLoggedIn;
      }
      var selected := SelectedProvider(providers, selectedProviderId);
      if selected.None? {
        return NoProvider;
      }
      if selectedDate == "" || selectedTime == "" {
        return MissingDateOrTime;
      }
      var time := NormalizeTime(selectedTime);
      var payload := BookingRequest(
        session.value.id,
        selected.value.providerId,
        PayloadServiceType(selected.value.serviceType, serviceType),
        selectedDate,
        time);
      posted := posted + [payload];
      if !accepted {
        return RequestFailed;
      }
      selectedDate := "";
      selectedTime := "";
      selectedProviderId := None;
      outcome := Created;
    }
  }
}
