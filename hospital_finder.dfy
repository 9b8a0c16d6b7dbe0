/** The hospital finder panel (src/components/hospital-finder.tsx): the keyword icon for a
    hospital name, the digits dialled for a phone number, the message shown for a geolocation
    failure, and the panel's state — the nearby hospitals, the loading flag, the error line and
    the fill-once cache of place details. The Maps places service and the browser's
    geolocation are outside; what they answer is a parameter. */
module HospitalFinder {
  import opened Wrappers
  import opened Text

  // ---------------------------------------------------------------------------------------
  // The icon for a hospital name

  datatype Icon = Baby | Heart | Eye | Tooth | Brain | Ribbon | Bone | Hospital

  /** The emoji the panel shows for an icon. */
  function Glyph(icon: Icon): (g: string)
    ensures |g| == 1 || |g| == 2
    ensures g[0] != '\U{FE0F}' && (|g| == 2 ==> g[1] == '\U{FE0F}')
  {
    match icon
    case Baby => "\U{1F476}"
    case Heart => "\U{2764}\U{FE0F}"
    case Eye => "\U{1F441}\U{FE0F}"
    case Tooth => "\U{1F9B7}"
    case Brain => "\U{1F9E0}"
    case Ribbon => "\U{1F397}\U{FE0F}"
    case Bone => "\U{1F9B4}"
    case Hospital => "\U{1F3E5}"
  }

  /** Different icons show different emoji, so the icon can be read back from what is shown. */
  lemma GlyphInjective(a: Icon, b: Icon)
    requires Glyph(a) == Glyph(b)
    ensures a == b
  {
    assert Glyph(a)[0] == Glyph(b)[0];
  }

  /** The `name: string = ''` default of `getHospitalIcon`. */
  function NameOf(name: Option<string>): string {
    match name
    case Some(n) => n
    case None => ""
  }

  /** `getHospitalIcon`: the lower-cased name is tested against the keyword pairs in a fixed
      order, and the first pair with a keyword in the name decides. */
  function HospitalIcon(name: Option<string>): (icon: Icon)
    ensures name.None? ==> icon == Hospital
  {
    var n := Lower(NameOf(name));
    if Contains(n, "children") || Contains(n, "pediatric") then Baby
    else if Contains(n, "heart") || Contains(n, "cardiac") then Heart
    else if Contains(n, "eye") || Contains(n, "vision") then Eye
    else if Contains(n, "dental") || Contains(n, "teeth") then Tooth
    else if Contains(n, "mental") || Contains(n, "psychiatric") then Brain
    else if Contains(n, "cancer") || Contains(n, "oncology") then Ribbon
    else if Contains(n, "maternity") || Contains(n, "women") then Baby
    else if Contains(n, "ortho") || Contains(n, "bone") then Bone
    else Hospital
  }

  /** A set of keywords and the icon they select. */
  datatype KeywordGroup = KeywordGroup(keywords: seq<string>, icon: Icon)

  /** The keyword groups in the order they are tried. */
  const KeywordGroups: seq<KeywordGroup> := [
    KeywordGroup(["children", "pediatric"], Baby),
    KeywordGroup(["heart", "cardiac"], Heart),
    KeywordGroup(["eye", "vision"], Eye),
    KeywordGroup(["dental", "teeth"], Tooth),
    KeywordGroup(["mental", "psychiatric"], Brain),
    KeywordGroup(["cancer", "oncology"], Ribbon),
    KeywordGroup(["maternity", "women"], Baby),
    KeywordGroup(["ortho", "bone"], Bone)
  ]

  /** Some keyword of `words` occurs in `s`. */
  predicate MentionsAny(s: string, words: seq<string>)
    decreases |words|
  {
    |words| > 0 && (Contains(s, words[0]) || MentionsAny(s, words[1..]))
  }

  /** Reference classifier: the icon of the first group with a keyword in `s`, otherwise the
      generic hospital. */
  function FirstMatch(s: string, groups: seq<KeywordGroup>): Icon
    decreases |groups|
  {
    if groups == [] then Hospital
    else if MentionsAny(s, groups[0].keywords) then groups[0].icon
    else FirstMatch(s, groups[1..])
  }

  /** The first group that matches decides. */
  lemma {:induction false} FirstMatchIsFirst(s: string, groups: seq<KeywordGroup>, k: int)
    requires 0 <= k < |groups| && MentionsAny(s, groups[k].keywords)
    requires forall j :: 0 <= j < k ==> !MentionsAny(s, groups[j].keywords)
    ensures FirstMatch(s, groups) == groups[k].icon
    decreases k
  {
    if k > 0 {
      assert !MentionsAny(s, groups[0].keywords);
      FirstMatchIsFirst(s, groups[1..], k - 1);
    }
  }

  /** With no group whose icon is the generic one, the generic hospital comes out exactly when
      no group matches. */
  lemma {:induction false} FirstMatchDefault(s: string, groups: seq<KeywordGroup>)
    requires forall j :: 0 <= j < |groups| ==> groups[j].icon != Hospital
    ensures FirstMatch(s, groups) == Hospital <==> forall j :: 0 <= j < |groups| ==> !MentionsAny(s, groups[j].keywords)
    decreases |groups|
  {
    if groups != [] {
      FirstMatchDefault(s, groups[1..]);
      assert forall j :: 1 <= j < |groups| ==> groups[j] == groups[1..][j - 1];
    }
  }

  /** The pair tested on line by line is one group of the table. */
  lemma MentionsPair(s: string, a: string, b: string)
    ensures MentionsAny(s, [a, b]) <==> Contains(s, a) || Contains(s, b)
  {
    assert [a, b][1..] == [b];
    assert [b][1..] == [];
    assert !MentionsAny(s, []);
    assert MentionsAny(s, [b]) <==> Contains(s, b);
    assert MentionsAny(s, [a, b]) <==> Contains(s, a) || MentionsAny(s, [b]);
  }

  /** `getHospitalIcon` is the reference classifier over the ordered keyword table, applied to
      the lower-cased name. */
  lemma HospitalIconIsFirstMatch(name: Option<string>)
    ensures HospitalIcon(name) == FirstMatch(Lower(NameOf(name)), KeywordGroups)
  {
    var n := Lower(NameOf(name));
    MentionsPair(n, "children", "pediatric");
    MentionsPair(n, "heart", "cardiac");
    MentionsPair(n, "eye", "vision");
    MentionsPair(n, "dental", "teeth");
    MentionsPair(n, "mental", "psychiatric");
    MentionsPair(n, "cancer", "oncology");
    MentionsPair(n, "maternity", "women");
    MentionsPair(n, "ortho", "bone");
  }

  /** Whenever group `k` is the first one with a keyword in the lower-cased name, its icon is
      the one shown. */
  lemma HospitalIconPriority(name: Option<string>, k: int)
    requires 0 <= k < |KeywordGroups|
    requires MentionsAny(Lower(NameOf(name)), KeywordGroups[k].keywords)
    requires forall j :: 0 <= j < k ==> !MentionsAny(Lower(NameOf(name)), KeywordGroups[j].keywords)
    ensures HospitalIcon(name) == KeywordGroups[k].icon
  {
    HospitalIconIsFirstMatch(name);
    FirstMatchIsFirst(Lower(NameOf(name)), KeywordGroups, k);
  }

  /** The generic hospital is shown exactly when no keyword occurs in the lower-cased name. */
  lemma HospitalIconDefault(name: Option<string>)
    ensures HospitalIcon(name) == Hospital
        <==> forall j :: 0 <= j < |KeywordGroups| ==> !MentionsAny(Lower(NameOf(name)), KeywordGroups[j].keywords)
  {
    var n := Lower(NameOf(name));
    HospitalIconIsFirstMatch(name);
    assert forall j :: 0 <= j < |KeywordGroups| ==> KeywordGroups[j].icon != Hospital;
    FirstMatchDefault(n, KeywordGroups);
  }

  /** Matching ignores ASCII case: a name and its lower-cased form get the same icon. */
  lemma HospitalIconIgnoresCase(name: string)
    ensures HospitalIcon(Some(name)) == HospitalIcon(Some(Lower(name)))
  {
    LowerIdempotent(name);
  }

  /** Names that agree letter by letter up to ASCII case get the same icon. */
  lemma HospitalIconCaseInsensitive(a: string, b: string)
    requires |a| == |b| && forall i :: 0 <= i < |a| ==> LowerChar(a[i]) == LowerChar(b[i])
    ensures HospitalIcon(Some(a)) == HospitalIcon(Some(b))
  {
    assert Lower(a) == Lower(b);
  }

  /** Two groups share the baby icon: a children's hospital, and a maternity or women's
      hospital that no earlier group claims. */
  lemma BabyIcon(name: Option<string>)
    ensures var n := Lower(NameOf(name));
      HospitalIcon(name) == Baby
      <==> (Contains(n, "children") || Contains(n, "pediatric"))
           || ((Contains(n, "maternity") || Contains(n, "women"))
               && !(Contains(n, "heart") || Contains(n, "cardiac") || Contains(n, "eye") || Contains(n, "vision")
                    || Contains(n, "dental") || Contains(n, "teeth") || Contains(n, "mental") || Contains(n, "psychiatric")
                    || Contains(n, "cancer") || Contains(n, "oncology")))
  {
  }

  // ---------------------------------------------------------------------------------------
  // Phone numbers

  /** `phoneNumber.replace(/\D/g, '')`: the number with every non-digit removed. */
  function CleanPhoneNumber(phone: string): (digits: string)
    ensures |digits| <= |phone|
    ensures forall i :: 0 <= i < |digits| ==> IsDigit(digits[i])
    decreases |phone|
  {
    if phone == [] then []
    else if IsDigit(phone[0]) then [phone[0]] + CleanPhoneNumber(phone[1..])
    else CleanPhoneNumber(phone[1..])
  }

  /** One character at a time: a digit is kept and anything else is dropped. With
      `CleanPhoneNumberAppend` this fixes the result for every input. */
  lemma CleanPhoneNumberSingle(c: char)
    ensures CleanPhoneNumber([c]) == if IsDigit(c) then [c] else []
  {
    assert [c][1..] == [];
  }

  /** Cleaning works piece by piece, so the digits keep their order: the cleaned number of a
      concatenation is the concatenation of the cleaned parts. */
  lemma {:induction false} CleanPhoneNumberAppend(a: string, b: string)
    ensures CleanPhoneNumber(a + b) == CleanPhoneNumber(a) + CleanPhoneNumber(b)
    decreases |a|
  {
    if a == [] {
      assert a + b == b;
    } else {
      assert (a + b)[0] == a[0] && (a + b)[1..] == a[1..] + b;
      CleanPhoneNumberAppend(a[1..], b);
      if IsDigit(a[0]) {
        calc {
          CleanPhoneNumber(a + b);
          [a[0]] + CleanPhoneNumber(a[1..] + b);
          [a[0]] + (CleanPhoneNumber(a[1..]) + CleanPhoneNumber(b));
          ([a[0]] + CleanPhoneNumber(a[1..])) + CleanPhoneNumber(b);
        }
      }
    }
  }

  /** No digit is lost: a number made only of digits is kept as it is. */
  lemma {:induction false} CleanPhoneNumberKeepsDigits(phone: string)
    requires forall i :: 0 <= i < |phone| ==> IsDigit(phone[i])
    ensures CleanPhoneNumber(phone) == phone
    decreases |phone|
  {
    if phone != [] {
      CleanPhoneNumberKeepsDigits(phone[1..]);
    }
  }

  /** Cleaning twice is cleaning once. */
  lemma CleanPhoneNumberIdempotent(phone: string)
    ensures CleanPhoneNumber(CleanPhoneNumber(phone)) == CleanPhoneNumber(phone)
  {
    CleanPhoneNumberKeepsDigits(CleanPhoneNumber(phone));
  }

  /** What `handlePhoneCall` does: on a phone it opens a `tel:` link with the digits, elsewhere
      it copies the number as displayed. */
  datatype PhoneAction = Dial(href: string) | CopyToClipboard(text: string)

  function PhoneCall(phone: string, isMobile: bool): (action: PhoneAction)
    ensures action.Dial? <==> isMobile
    ensures action.Dial? ==> StartsWith(action.href, "tel:")
    ensures !isMobile ==> action == CopyToClipboard(phone)
  {
    if isMobile then Dial("tel:" + CleanPhoneNumber(phone)) else CopyToClipboard(phone)
  }

  /** A dialled link is `tel:` followed by digits only, the number's digits in order. */
  lemma DialledDigits(phone: string)
    ensures var action := PhoneCall(phone, true);
      action.href[4..] == CleanPhoneNumber(phone)
      && forall i :: 4 <= i < |action.href| ==> IsDigit(action.href[i])
  {
    var action := PhoneCall(phone, true);
    assert action.href[4..] == CleanPhoneNumber(phone);
  }

  // ---------------------------------------------------------------------------------------
  // Geolocation errors

  /** The codes of a geolocation error. */
  const PermissionDenied: int := 1
  const PositionUnavailable: int := 2
  const Timeout: int := 3

  const DeniedMessage: string := "Location access denied. Please enable location services in your browser."
  const UnavailableMessage: string := "Location information is unavailable. Please try again."
  const TimeoutMessage: string := "Location request timed out. Please try again."
  const UnknownMessage: string := "An unknown error occurred while getting your location."
  const NotSupportedMessage: string := "Geolocation is not supported by your browser"
  const SearchFailedMessage: string := "Unable to find hospitals in this area. Please try again."

  /** The `switch (error.code)` of the geolocation error callback. */
  function LocationErrorMessage(code: int): (message: string)
    ensures message in {DeniedMessage, UnavailableMessage, TimeoutMessage, UnknownMessage}
  {
    if code == PermissionDenied then DeniedMessage
    else if code == PositionUnavailable then UnavailableMessage
    else if code == Timeout then TimeoutMessage
    else UnknownMessage
  }

  /** Each of the three known codes has its own message, and every other code gets the generic
      one; so the message tells the code back. */
  lemma LocationErrorMessageDistinct(code: int)
    ensures LocationErrorMessage(code) == DeniedMessage <==> code == PermissionDenied
    ensures LocationErrorMessage(code) == UnavailableMessage <==> code == PositionUnavailable
    ensures LocationErrorMessage(code) == TimeoutMessage <==> code == Timeout
    ensures LocationErrorMessage(code) == UnknownMessage <==> code !in {PermissionDenied, PositionUnavailable, Timeout}
  {
  }

  // ---------------------------------------------------------------------------------------
  // The place-details cache

  /** A coordinate pair. */
  datatype LatLng = LatLng(lat: real, lng: real)

  /** Where the map starts: the centre of India. */
  const DefaultCenter: LatLng := LatLng(20.5937, 78.9629)

  /** A place as the places service describes it (the fields the panel reads). */
  datatype Place = Place(placeId: Option<string>, name: Option<string>, address: Option<string>, phone: Option<string>)

  /** The cache key of a place: its `place_id` when that is truthy (present and non-empty). */
  function PlaceKey(p: Place): (key: Option<string>)
    ensures key.Some? ==> key.value != "" && p.placeId == key
    ensures key.None? ==> p.placeId.None? || p.placeId.value == ""
  {
    if p.placeId.Some? && p.placeId.value != "" then p.placeId else None
  }

  /** One `getHospitalDetails(hospital)` call, against the cache `captured` it tests (the
      one its callback closed over) and the cache `cache` its result is merged into.
      `lookup(id)` is `Some(result)` when the details request answers OK with a result. */
  function DetailStep(cache: map<string, Place>, captured: map<string, Place>, mapLoaded: bool,
                      hospital: Place, lookup: string -> Option<Place>): (after: map<string, Place>)
    ensures forall id <- after :: id in cache || PlaceKey(hospital) == Some(id)
    ensures forall id <- cache :: id in after && (id in captured ==> after[id] == cache[id])
  {
    match PlaceKey(hospital)
    case None => cache
    case Some(id) =>
      if !mapLoaded || id in captured then cache
      else match lookup(id)
        case Some(details) => cache[id := details]
        case None => cache
  }

  /** No map, no usable `place_id`, an id already cached, or a failed lookup: nothing changes. */
  lemma DetailStepSkips(cache: map<string, Place>, mapLoaded: bool, hospital: Place, lookup: string -> Option<Place>)
    requires !mapLoaded || PlaceKey(hospital).None? || PlaceKey(hospital).value in cache
             || lookup(PlaceKey(hospital).value).None?
    ensures DetailStep(cache, cache, mapLoaded, hospital, lookup) == cache
  {
  }

  /** A successful lookup adds exactly the one key, holding the details, and every other entry
      stays as it was. */
  lemma DetailStepAddsOne(cache: map<string, Place>, hospital: Place, lookup: string -> Option<Place>)
    requires PlaceKey(hospital).Some? && PlaceKey(hospital).value !in cache
    requires lookup(PlaceKey(hospital).value).Some?
    ensures var id := PlaceKey(hospital).value;
      var after := DetailStep(cache, cache, true, hospital, lookup);
      && after.Keys == cache.Keys + {id}
      && after[id] == lookup(id).value
      && forall k :: k in cache ==> after[k] == cache[k]
  {
  }

  /** `hospitals.forEach(getHospitalDetails)`: the steps for the listed places in order, all
      testing the same captured cache. */
  function FillDetails(cache: map<string, Place>, captured: map<string, Place>, mapLoaded: bool,
                       hospitals: seq<Place>, lookup: string -> Option<Place>): (after: map<string, Place>)
    ensures forall id <- cache :: id in after && (id in captured ==> after[id] == cache[id])
    decreases |hospitals|
  {
    if hospitals == [] then cache
    else DetailStep(FillDetails(cache, captured, mapLoaded, hospitals[..|hospitals| - 1], lookup),
                    captured, mapLoaded, hospitals[|hospitals| - 1], lookup)
  }

  /** Some listed place has `id` as its key. */
  predicate Listed(hospitals: seq<Place>, id: string) {
    exists i :: 0 <= i < |hospitals| && PlaceKey(hospitals[i]) == Some(id)
  }

  /** The key `id` gets filled by the pass. */
  predicate Fills(captured: map<string, Place>, mapLoaded: bool, hospitals: seq<Place>,
                  lookup: string -> Option<Place>, id: string)
  {
    mapLoaded && id !in captured && Listed(hospitals, id) && lookup(id).Some?
  }

  /** Entry by entry, what a pass over the results leaves: a key is filled when the map is
      loaded, a listed place has it, it was not in the captured cache and its lookup succeeds,
      and then it holds the lookup's details; every other entry is as before. */
  lemma {:induction false} FillDetailsEntry(cache: map<string, Place>, captured: map<string, Place>, mapLoaded: bool,
                                            hospitals: seq<Place>, lookup: string -> Option<Place>, id: string)
    ensures var after := FillDetails(cache, captured, mapLoaded, hospitals, lookup);
      && (id in after <==> id in cache || Fills(captured, mapLoaded, hospitals, lookup, id))
      && (id in after ==> after[id] == if Fills(captured, mapLoaded, hospitals, lookup, id) then lookup(id).value else cache[id])
    decreases |hospitals|
  {
    if hospitals != [] {
      var front := hospitals[..|hospitals| - 1];
      var last := hospitals[|hospitals| - 1];
      FillDetailsEntry(cache, captured, mapLoaded, front, lookup, id);
      assert Listed(hospitals, id) <==> Listed(front, id) || PlaceKey(last) == Some(id) by {
        if Listed(hospitals, id) {
          var i :| 0 <= i < |hospitals| && PlaceKey(hospitals[i]) == Some(id);
          if i < |front| {
            assert front[i] == hospitals[i];
          }
        }
        if Listed(front, id) {
          var i :| 0 <= i < |front| && PlaceKey(front[i]) == Some(id);
          assert hospitals[i] == front[i];
        }
      }
    }
  }

  /** The cache is fill-once: an entry that was there before a pass over fresh search results
      is still there, unchanged, afterwards. */
  lemma FillDetailsKeepsEntries(cache: map<string, Place>, mapLoaded: bool, hospitals: seq<Place>,
                                lookup: string -> Option<Place>, id: string)
    requires id in cache
    ensures var after := FillDetails(cache, cache, mapLoaded, hospitals, lookup);
      id in after && after[id] == cache[id]
  {
    FillDetailsEntry(cache, cache, mapLoaded, hospitals, lookup, id);
  }

  /** A new entry belongs to one of the listed places and holds what its lookup returned. */
  lemma FillDetailsNewEntries(cache: map<string, Place>, mapLoaded: bool, hospitals: seq<Place>,
                              lookup: string -> Option<Place>, id: string)
    requires id !in cache
    ensures var after := FillDetails(cache, cache, mapLoaded, hospitals, lookup);
      id in after <==> mapLoaded && Listed(hospitals, id) && lookup(id).Some?
    ensures var after := FillDetails(cache, cache, mapLoaded, hospitals, lookup);
      id in after ==> after[id] == lookup(id).value
  {
    FillDetailsEntry(cache, cache, mapLoaded, hospitals, lookup, id);
  }

  /** Every cache key is a usable `place_id`. */
  predicate KeysUsable(cache: map<string, Place>) {
    forall id <- cache :: id != ""
  }

  /** A pass keeps every key usable. */
  lemma FillDetailsKeysUsable(cache: map<string, Place>, captured: map<string, Place>, mapLoaded: bool,
                              hospitals: seq<Place>, lookup: string -> Option<Place>)
    requires KeysUsable(cache)
    ensures KeysUsable(FillDetails(cache, captured, mapLoaded, hospitals, lookup))
  {
    var after := FillDetails(cache, captured, mapLoaded, hospitals, lookup);
    forall id | id in after ensures id != "" {
      FillDetailsEntry(cache, captured, mapLoaded, hospitals, lookup, id);
      if id !in cache {
        var i :| 0 <= i < |hospitals| && PlaceKey(hospitals[i]) == Some(id);
      }
    }
  }

  // ---------------------------------------------------------------------------------------
  // The panel

  /** What the nearby search answered: status OK with a result list, or anything else. */
  datatype SearchReply = SearchOk(results: seq<Place>) | SearchFailed

  /** The nearby-search request: hospitals within 5000 metres of a point. */
  datatype SearchRequest = SearchRequest(location: LatLng, radius: int, placeType: string)

  const SearchRadius: int := 5000

  /** What the browser's position request ended in. */
  datatype GeoFix = Position(at: LatLng) | GeoError(code: int)

  class Finder {
    /** Whether the map has loaded (`map` is not null). */
    var mapLoaded: bool
    var hospitals: seq<Place>
    var userLocation: LatLng
    var isLoading: bool
    var locationError: string
    var selectedHospital: Option<Place>
    var hospitalDetails: map<string, Place>

    /** The cache only ever holds usable `place_id`s. */
    ghost predicate Valid()
      reads this
    {
      KeysUsable(hospitalDetails)
    }

    /** The initial `useState` values. */
    constructor ()
      ensures Valid()
      ensures !mapLoaded && hospitals == [] && userLocation == DefaultCenter && !isLoading
      ensures locationError == "" && selectedHospital == None && hospitalDetails == map[]
    {
      mapLoaded := false;
      hospitals := [];
      userLocation := DefaultCenter;
      isLoading := false;
      locationError := "";
      selectedHospital := None;
      hospitalDetails := map[];
    }

    /** `onLoad` of the map. */
    method OnLoad()
      modifies this`mapLoaded
      ensures mapLoaded
    {
      mapLoaded := true;
    }

    /** `onUnmount` of the map. */
    method OnUnmount()
      modifies this`mapLoaded
      ensures !mapLoaded
    {
      mapLoaded := false;
    }

    /** A marker or a list entry was clicked (`Some`), or the info window closed (`None`). */
    method SelectHospital(hospital: Option<Place>)
      modifies this`selectedHospital
      ensures selectedHospital == hospital
    {
      selectedHospital := hospital;
    }

    /** `getHospitalDetails(hospital)` */
    method GetHospitalDetails(hospital: Place, lookup: string -> Option<Place>)
      requires Valid()
      modifies this`hospitalDetails
      ensures Valid()
      ensures hospitalDetails == DetailStep(old(hospitalDetails), old(hospitalDetails), mapLoaded, hospital, lookup)
    {
      var id := PlaceKey(hospital);
      if !mapLoaded || id.None? || id.value in hospitalDetails {
        return;
      }
      var details := lookup(id.value);
      if details.Some? {
        hospitalDetails := hospitalDetails[id.value := details.value];
      }
    }

    /** `searchNearbyHospitals`, with the search callback run on `reply`. It returns the
        request sent, or `None` when there is no map. */
    method SearchNearbyHospitals(reply: SearchReply, lookup: string -> Option<Place>)
      returns (request: Option<SearchRequest>)
      requires Valid()
      modifies this`isLoading, this`locationError, this`hospitals, this`hospitalDetails
      ensures Valid()
      ensures !mapLoaded ==> request == None && unchanged(this)
      ensures mapLoaded ==> request == Some(SearchRequest(userLocation, SearchRadius, "hospital")) && !isLoading
      ensures mapLoaded && reply.SearchOk? ==>
        && hospitals == reply.results && locationError == ""
        && hospitalDetails == FillDetails(old(hospitalDetails), old(hospitalDetails), true, reply.results, lookup)
      ensures mapLoaded && reply.SearchFailed? ==>
        hospitals == old(hospitals) && locationError == SearchFailedMessage && hospitalDetails == old(hospitalDetails)
    {
      if !mapLoaded {
        return None;
      }
      isLoading := true;
      locationError := "";
      request := Some(SearchRequest(userLocation, SearchRadius, "hospital"));
      // the search callback
      isLoading := false;
      match reply {
        case SearchFailed =>
          locationError := SearchFailedMessage;
        case SearchOk(results) =>
          hospitals := results;
          var captured := hospitalDetails;
          for i := 0 to |results|
            invariant hospitalDetails == FillDetails(captured, captured, true, results[..i], lookup)
            invariant hospitals == results && !isLoading && locationError == ""
          {
            assert results[..i + 1][..i] == results[..i];
            var id := PlaceKey(results[i]);
            if id.Some? && id.value !in captured {
              var details := lookup(id.value);
              if details.Some? {
                hospitalDetails := hospitalDetails[id.value := details.value];
              }
            }
          }
          assert results[..|results|] == results;
          FillDetailsKeysUsable(captured, captured, true, results, lookup);
      }
    }

    /** `getUserLocation`, with the position request answered by `fix`; `supported` says
        whether the browser has geolocation at all. */
    method GetUserLocation(supported: bool, fix: GeoFix)
      modifies this`isLoading, this`locationError, this`userLocation
      ensures !supported ==>
        locationError == NotSupportedMessage && isLoading == old(isLoading) && userLocation == old(userLocation)
      ensures supported ==> !isLoading
      ensures supported && fix.Position? ==> userLocation == fix.at && locationError == ""
      ensures supported && fix.GeoError? ==>
        userLocation == old(userLocation) && locationError == LocationErrorMessage(fix.code)
    {
      if !supported {
        locationError := NotSupportedMessage;
        return;
      }
      isLoading := true;
      locationError := "";
      match fix {
        case Position(at) =>
          userLocation := at;
          isLoading := false;
        case GeoError(code) =>
          isLoading := false;
          locationError := LocationErrorMessage(code);
      }
    }
  }
}
