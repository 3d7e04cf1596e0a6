# Flight search proxy and result widgets: a Dafny model

This project models the core of a travel-planner application:

- **The `search-flights` edge function.** It is a proxy in front of a third-party flight-offer provider.
  - It keeps one process-wide cached access token.
  - It obtains a new token with the OAuth 2.0 client-credentials grant (section 4.4 of RFC 6749) whenever the cache is empty or expired.
  - It builds the offer-search query and sends it with the token as a bearer credential.
  - It normalises the provider's offers into flat travel-option records. Part of that is rewriting ISO 8601 `PTnHnM` durations as `"<h>h <m>m"`.
  - It answers the caller with 200, 400 or 500.
- **The transport section of the results page.** This covers its heading per transport mode, the option-count badge, and the land section's bus-before-train ordering.
- **The city autocomplete input.** This covers its case-insensitive filter and the open/closed state of its suggestion dropdown.

One Dafny module per file:

| module | file | models |
|---|---|---|
| `JsValues` | js_values.dfy | absent fields and truthiness, `slice`, `trim`, ASCII `toLowerCase`, `includes` |
| `Decimal` | decimal.dfy | `Number.prototype.toString` on integers |
| `Http` | http.dfy | parameter lists, `URLSearchParams.get`, provider answers, the record of outbound requests |
| `Credentials` | token_cache.dfy | `cachedToken` and `getAmadeusToken` |
| `ProviderData` | provider.dfy | the provider's search answer |
| `Travel` | travel.dfy | transport modes, option kinds, the UI's travel option |
| `FlightQuery` | flight_query.dfy | `searchFlights` |
| `Duration` | duration.dfy | `formatDuration` |
| `Normalizer` | normalizer.dfy | `transformFlightOffers` |
| `SearchHandler` | handler.dfy | the request handler passed to `serve` |
| `TransportSection` | transport_section.dfy | `getSectionConfig`, the land comparator and `sortedOptions`, the count badge |
| `CityAutocomplete` | city_autocomplete.dfy | the filter, the value effect, `handleFocus`, `handleSelect`, the dropdown condition |

How the model is built:

- **The outside world is passed in as parameters.**
  - Each outbound `fetch` is a `Reply`: either it throws with a message, or it answers with a status and a decoded body.
  - The environment variables are an `Env` value.
  - `Date.now()` is two parameters. `now` is the reading used by the freshness test. `issuedAt` is the later reading taken when a new token is stored; the code reads the clock twice.
  - Each operation returns, as a `Call` sequence, the outbound requests it made. This lets the contracts say "no request was made" or "exactly one token request was made".
- **Shared state is a class.**
  - The token cache is the `TokenCache` class, whose single field is the cache slot.
  - The URLSearchParams object is the `QueryParams` class.
  - The autocomplete's React state is the `Autocomplete` class.
- **Each stateful operation is proved equal to a specification function.** The lemmas are stated about those functions.
  - The method `TokenCache.GetToken` is proved equal to `Acquire`.
  - The module-level methods `SearchFlights` and `Handle` are proved equal to `SearchOffers` and `Serve`.
  - The methods `Autocomplete.ValueChanged` and `Autocomplete.Focus` are proved equal to `OnValue` and `OnFocus`.
  - `Autocomplete.Select` and `QueryParams.Append` state their new state directly.

Two behaviours of the code are worth noting:

- **Zero duration parts are kept.** The captured text `"0"` is a non-empty, truthy string, so `"PT0H30M"` becomes `"0h 30m"` (index.ts:105). `Duration.ExampleZeroHours` states this.
- **A rejected token request throws a fixed message.** The message is "Failed to authenticate with Amadeus API". The answer's text is only logged (index.ts:47-50).

## Model

| member | source | states |
|---|---|---|
| JsValues.Slice | supabase/functions/search-flights/index.ts:129-130 | `slice(11, 16)` gives at most five characters, and exactly characters 11 to 16 of a long-enough timestamp |
| JsValues.Trim | supabase/functions/search-flights/index.ts:107 | the trimmed text neither starts nor ends with white space |
| JsValues.TrimKeeps | supabase/functions/search-flights/index.ts:107 | text that starts and ends with non-white-space is not changed by trim |
| JsValues.TrimDropsLeadingSpace | supabase/functions/search-flights/index.ts:106-107 | the space put in front of the minutes is trimmed away when there are no hours |
| JsValues.Lower | src/components/CityAutocomplete.tsx:31-32 | lower-casing keeps the length and lower-cases each character |
| JsValues.LowerIdempotent | src/components/CityAutocomplete.tsx:31-32 | lower-casing twice is lower-casing once |
| JsValues.Includes | src/components/CityAutocomplete.tsx:31-32 | a needle found in the text is no longer than the text |
| JsValues.IncludesIffWindow | src/components/CityAutocomplete.tsx:31-32 | `includes` holds exactly when the needle equals some window of the text |
| Decimal.NatToString | supabase/functions/search-flights/index.ts:125 | a position renders as a non-empty run of digits with no leading zero |
| Decimal.IntToString | supabase/functions/search-flights/index.ts:70-71 | a non-negative integer renders as digits; a negative one as a minus sign followed by digits |
| Decimal.NatToStringRoundTrip | supabase/functions/search-flights/index.ts:125 | reading back a rendered position gives the position |
| Decimal.NatToStringInjective | supabase/functions/search-flights/index.ts:125 | two positions render alike exactly when they are equal |
| Decimal.IntToStringInjective | supabase/functions/search-flights/index.ts:94 | two statuses render alike exactly when they are equal |
| Http.IndexOf | supabase/functions/search-flights/index.ts:66-77 | the position found is the first entry with the name, or the end when no entry has it |
| Http.Get | supabase/functions/search-flights/index.ts:66-77 | `get` finds nothing exactly when no entry has the name |
| Http.GetFirst | supabase/functions/search-flights/index.ts:66-77 | `get` returns the value of an entry when no earlier entry has the same name |
| Credentials.Acquire | supabase/functions/search-flights/index.ts:20-63 | a call that throws leaves the slot unchanged; one that returns a token leaves that token cached; at most one request is made |
| Credentials.CacheHit | supabase/functions/search-flights/index.ts:22-24 | a token still usable (now strictly before its expiry) is returned unchanged, with no credential check, no request and no change to the cache |
| Credentials.RefreshRequests | supabase/functions/search-flights/index.ts:26-45 | with no usable token (including now equal to the expiry), configured credentials lead to exactly one client-credentials request carrying them; missing ones throw the configuration error with no request |
| Credentials.AtMostOneTokenRequest | supabase/functions/search-flights/index.ts:20-63 | a call makes at most one request, always a token request, and makes one exactly when there is no usable token and credentials are configured |
| Credentials.RefreshReplacesSlot | supabase/functions/search-flights/index.ts:53-62 | an ok token answer replaces the slot with the new token and expiry `issuedAt + (expires_in - 60) * 1000`, and returns that token |
| Credentials.RejectedGrantThrows | supabase/functions/search-flights/index.ts:47-51 | a non-ok token answer throws "Failed to authenticate with Amadeus API" and leaves the slot unchanged |
| Credentials.SecondCallWithinMargin | supabase/functions/search-flights/index.ts:22-58 | after a refresh, a later call reuses the token with no request exactly when it comes more than 60 seconds before the token's real end of life |
| Credentials.TokenCache.constructor | supabase/functions/search-flights/index.ts:18 | a process starts with an empty slot |
| Credentials.TokenCache.GetToken | supabase/functions/search-flights/index.ts:20-63 | the token or thrown message, the new slot and the requests are those of `Acquire` on the old slot |
| FlightQuery.SearchQuery | supabase/functions/search-flights/index.ts:66-78 | the query is the seven fixed entries, plus an eighth, the return date, exactly when the request has a non-empty one |
| FlightQuery.SearchOffers | supabase/functions/search-flights/index.ts:65-98 | exactly one search request is sent, with the query and the bearer token; the body comes back exactly on an ok answer |
| FlightQuery.SearchQueryContents | supabase/functions/search-flights/index.ts:66-78 | read with `get`, the query has distinct names, the three request fields, both passenger counts in decimal, currency USD, max 10, and a return date exactly when the request has a non-empty one |
| FlightQuery.QueryNamesDistinct | supabase/functions/search-flights/index.ts:66-78 | no parameter name occurs twice in the query |
| FlightQuery.PlaceLookups | supabase/functions/search-flights/index.ts:67-69 | origin, destination and departure date are sent as given, an absent one as "undefined" |
| FlightQuery.CountLookups | supabase/functions/search-flights/index.ts:70-71 | adults and children are sent as their decimal text |
| FlightQuery.FixedLookups | supabase/functions/search-flights/index.ts:72-73 | the currency is always USD and at most 10 offers are asked for |
| FlightQuery.ReturnDateLookup | supabase/functions/search-flights/index.ts:76-78 | a return date is sent exactly when the request has a non-empty one, and it is that date |
| FlightQuery.SearchOutcome | supabase/functions/search-flights/index.ts:82-97 | exactly one search request is sent, with the query and `Bearer <token>`; the body comes back exactly on an ok status; a non-ok status throws "Flight search failed: <status>"; a rejected fetch throws its own message |
| FlightQuery.FailureMessageIdentifiesStatus | supabase/functions/search-flights/index.ts:94 | two search-failure messages are equal exactly when their statuses are |
| FlightQuery.QueryParams.constructor | supabase/functions/search-flights/index.ts:66-74 | the parameter object holds the initial entries in order |
| FlightQuery.QueryParams.Append | supabase/functions/search-flights/index.ts:77 | `append` adds one entry at the end and keeps the others |
| FlightQuery.SearchFlights | supabase/functions/search-flights/index.ts:65-98 | the result and the request sent are those of `SearchOffers` |
| Duration.FindPT | supabase/functions/search-flights/index.ts:102 | the match starts at the leftmost "PT" |
| Duration.DigitRun | supabase/functions/search-flights/index.ts:102 | `\d+` takes every digit from the position on, and stops before the first non-digit |
| Duration.Group | supabase/functions/search-flights/index.ts:102 | an optional `(\d+)U` group either captures a non-empty run of digits followed by the unit letter, or is skipped without consuming anything |
| Duration.Captures | supabase/functions/search-flights/index.ts:102-103 | the expression fails to match exactly when there is no "PT" |
| Duration.FormatDuration | supabase/functions/search-flights/index.ts:100-108 | text without "PT" is returned unchanged; otherwise the result has no white space at either end |
| Duration.Readout | supabase/functions/search-flights/index.ts:105-107 | the text built from the captures has no white space at either end |
| Duration.DigitRunOf | supabase/functions/search-flights/index.ts:102 | the greedy digit run is exactly the block of digits in front of a non-digit |
| Duration.GroupCaptures | supabase/functions/search-flights/index.ts:102 | a group in front of digits and its unit letter captures those digits |
| Duration.GroupSkips | supabase/functions/search-flights/index.ts:102 | a group in front of digits and another letter, or at the end, is skipped |
| Duration.FindPTAfter | supabase/functions/search-flights/index.ts:102 | the match starts right after a prefix that holds no "PT" |
| Duration.FormatFromGroups | supabase/functions/search-flights/index.ts:102-107 | once the match position and both groups are known, the result is the text built from their captures |
| Duration.ReadoutHoursMinutes | supabase/functions/search-flights/index.ts:105-107 | hours and minutes read `<h>h <m>m` |
| Duration.ReadoutHours | supabase/functions/search-flights/index.ts:105-107 | hours alone read `<h>h` |
| Duration.ReadoutMinutes | supabase/functions/search-flights/index.ts:105-107 | minutes alone read `<m>m`, without the leading space |
| Duration.ReadoutNeither | supabase/functions/search-flights/index.ts:105-107 | no captures read as empty text |
| Duration.FormatHoursMinutes | supabase/functions/search-flights/index.ts:100-108 | `PT<h>H<m>M` after a prefix with no "PT" becomes `<h>h <m>m` |
| Duration.FormatHoursOnly | supabase/functions/search-flights/index.ts:100-108 | `PT<h>H` becomes `<h>h` |
| Duration.FormatMinutesOnly | supabase/functions/search-flights/index.ts:100-108 | `PT<m>M` becomes `<m>m` |
| Duration.FormatNeither | supabase/functions/search-flights/index.ts:100-108 | a bare `PT` becomes empty text |
| Duration.FormatIsoDuration | supabase/functions/search-flights/index.ts:100-108 | every ISO 8601 `PT[<h>H][<m>M]` duration, after text holding no "PT", becomes its readable form |
| Duration.FormatIso | supabase/functions/search-flights/index.ts:100-108 | every ISO 8601 `PT[<h>H][<m>M]` duration becomes its readable form |
| Duration.ExampleHoursMinutes | supabase/functions/search-flights/index.ts:101 | "PT2H30M" becomes "2h 30m" |
| Duration.ExampleMinutes | supabase/functions/search-flights/index.ts:106-107 | "PT45M" becomes "45m" |
| Duration.ExampleHours | supabase/functions/search-flights/index.ts:105 | "PT3H" becomes "3h" |
| Duration.ExampleZeroHours | supabase/functions/search-flights/index.ts:105 | "PT0H30M" becomes "0h 30m": a zero part is kept |
| Duration.ExampleDayPart | supabase/functions/search-flights/index.ts:102-103 | "P1DT2H" holds no "PT" and comes back unchanged |
| Normalizer.TransformFrom | supabase/functions/search-flights/index.ts:118-140 | one record per offer, each built from its offer and its position |
| Normalizer.TransformFlightOffers | supabase/functions/search-flights/index.ts:110-141 | no records when the offer list is absent or not an array; otherwise one record per offer, in order, each built from its offer and its index |
| Normalizer.TransformOffer | supabase/functions/search-flights/index.ts:118-139 | each record is an air flight with the placeholder amenities and the id `flight-<offer id, or index when it has none>` |
| Normalizer.FlightNumberField | supabase/functions/search-flights/index.ts:121-138 | the flight number is the carrier code followed by the first segment's number, or the code alone when there is none; the code is never empty |
| Normalizer.CabinField | supabase/functions/search-flights/index.ts:136 | the cabin is the first fare detail's non-empty cabin, else "Economy" |
| Normalizer.ClockTimes | supabase/functions/search-flights/index.ts:129-130 | the times are at most five characters, characters 11 to 16 of a full-length timestamp, and empty when the segment or timestamp is absent |
| Normalizer.Airports | supabase/functions/search-flights/index.ts:133-134 | origin and destination are the first departure and last arrival airports, each empty when absent |
| Normalizer.PriceDefault | supabase/functions/search-flights/index.ts:132 | the price text is the offer's non-empty total, else "0" |
| Normalizer.DurationField | supabase/functions/search-flights/index.ts:131 | the duration is the first itinerary's duration rewritten, and empty when absent |
| Normalizer.ProviderName | supabase/functions/search-flights/index.ts:121-122 | the provider is the dictionary's non-empty name for the carrier, else the carrier code, which is "Unknown" when the first segment has none |
| Normalizer.StopCount | supabase/functions/search-flights/index.ts:137 | stops are the first itinerary's segment count less one (-1 for no segments), and 0 without an itinerary |
| Normalizer.FlightIdsDistinct | supabase/functions/search-flights/index.ts:118-125 | ids are pairwise different when no offer has an id, and when all offers have distinct ids |
| Normalizer.IdsCollideWhenMixed | supabase/functions/search-flights/index.ts:125 | an offer with id "1" followed by one without an id gives two records with id "flight-1" |
| Normalizer.ExampleDuration | supabase/functions/search-flights/index.ts:131 | "PT6H30M" becomes "6h 30m" |
| Normalizer.ExampleOfferDuration | supabase/functions/search-flights/index.ts:131 | the example offer's duration reads "6h 30m" |
| Normalizer.ExampleOfferTimes | supabase/functions/search-flights/index.ts:129-130 | the example offer departs "08:15" from its first segment and arrives "14:45" from its last |
| Normalizer.ExampleOfferNames | supabase/functions/search-flights/index.ts:121-138 | the example offer gets id, provider, flight number, cabin, stops, price text and airports from the right fields |
| Normalizer.AmericanAirlinesExample | supabase/functions/search-flights/index.ts:110-141 | a two-segment AA offer yields exactly the expected record |
| Normalizer.MissingFieldResilience | supabase/functions/search-flights/index.ts:111-136 | an unknown carrier shows its code, and price, cabin and stops take their defaults; no offer list gives no records |
| SearchHandler.Serve | supabase/functions/search-flights/index.ts:143-184 | every answer has status 200, 400 or 500; a flight list carries `meta.total` equal to its length; at most two requests are made |
| SearchHandler.PreflightShortCircuits | supabase/functions/search-flights/index.ts:145-147 | OPTIONS gets an empty 200 answer with only the CORS headers, with no request and no cache change |
| SearchHandler.IncompleteRequestRejected | supabase/functions/search-flights/index.ts:155-160 | a missing or empty origin, destination or departure date gets 400 with the fixed message, before any token work |
| SearchHandler.AnswerShape | supabase/functions/search-flights/index.ts:143-184 | every non-OPTIONS answer carries the CORS and JSON headers and has status 200, 400 or 500; 200 exactly when it lists flights, with `meta.total` their number; otherwise an error message |
| SearchHandler.SuccessIffEveryStepSucceeds | supabase/functions/search-flights/index.ts:149-176 | 200 exactly when the body is complete, a token is obtained and the search answers ok; the flights are then the normalised answer |
| SearchHandler.ThrownErrorsAnswer500 | supabase/functions/search-flights/index.ts:177-183 | a failure reading the body, in the token cache or in the search gets 500 with the thrown message |
| SearchHandler.TokenFailureSkipsSearch | supabase/functions/search-flights/index.ts:162-166 | when the token cache throws, no search is sent |
| SearchHandler.SearchUsesObtainedToken | supabase/functions/search-flights/index.ts:162-166 | with a token, exactly one search is sent, after any token request, carrying the request's query and that token |
| SearchHandler.WarmCacheSkipsExchange | supabase/functions/search-flights/index.ts:18-24 | a second request within the token's lifetime less 60 seconds sends only its search |
| SearchHandler.Handle | supabase/functions/search-flights/index.ts:143-184 | the answer, the new cache slot and the requests sent are those of `Serve` on the old slot |
| TransportSection.Compare | src/components/TransportSection.tsx:41-45 | (bus, train) gives -1, (train, bus) gives 1, any other pair 0 |
| TransportSection.CompareAntisymmetric | src/components/TransportSection.tsx:41-45 | swapping the arguments negates the comparison |
| TransportSection.Insert | src/components/TransportSection.tsx:41-45 | inserting keeps every option and adds the new one |
| TransportSection.SortBy | src/components/TransportSection.tsx:41-45 | sorting gives a permutation of the options |
| TransportSection.SortedOptions | src/components/TransportSection.tsx:40-46 | the listed options are a permutation of the input; air and water are listed as given |
| TransportSection.InsertTrain | src/components/TransportSection.tsx:43 | a train goes after every bus and before every train |
| TransportSection.InsertBus | src/components/TransportSection.tsx:42 | a bus goes to the front |
| TransportSection.LandOrder | src/components/TransportSection.tsx:39-45 | options that are all buses or trains are listed as the buses in their order, then the trains in theirs |
| TransportSection.BusesBeforeTrains | src/components/TransportSection.tsx:39-45 | in the land section no train comes before a bus |
| TransportSection.SortedLandUnchanged | src/components/TransportSection.tsx:40-45 | land options already ordered buses-then-trains are listed as given |
| TransportSection.GetSectionConfig | src/components/TransportSection.tsx:10-33 | every title is "By " followed by at least one more character |
| TransportSection.TitlesDistinct | src/components/TransportSection.tsx:10-33 | two modes share a title exactly when they are the same mode |
| TransportSection.CountLabel | src/components/TransportSection.tsx:61 | the badge starts with the count in decimal |
| TransportSection.CountLabelSingular | src/components/TransportSection.tsx:61 | the badge says "option" exactly for one, and "options" otherwise |
| TransportSection.CountLabelInjective | src/components/TransportSection.tsx:61 | different counts give different badges |
| TransportSection.CountMatchesListing | src/components/TransportSection.tsx:61 | the badge counts the unsorted input, which has as many options as the listing |
| CityAutocomplete.Matches | src/components/CityAutocomplete.tsx:30-33 | a value that lower-cases to a prefix of the lower-cased name or code matches; a matching value is no longer than the name or the code |
| CityAutocomplete.FilterCities | src/components/CityAutocomplete.tsx:30-33 | a city is kept exactly when it is in the list and matches, as many times as it occurs; the result is a subsequence of the list |
| CityAutocomplete.KeptIffSubstring | src/components/CityAutocomplete.tsx:30-33 | a city is kept exactly when the lower-cased value occurs in its lower-cased name or code |
| CityAutocomplete.FilterIgnoresCase | src/components/CityAutocomplete.tsx:31-32 | the filter ignores the case of the value |
| CityAutocomplete.FilterEmptyKeepsAll | src/components/CityAutocomplete.tsx:36-38 | the empty value would keep every city, matching the full list shown for it |
| CityAutocomplete.FilterKeepsAllMatching | src/components/CityAutocomplete.tsx:30-33 | when every city matches, the filter keeps the whole list |
| CityAutocomplete.OnValue | src/components/CityAutocomplete.tsx:28-40 | the listed cities are a subsequence of the list; the dropdown opens only on a non-empty value with something listed whose first name differs from the value |
| CityAutocomplete.OnFocus | src/components/CityAutocomplete.tsx:58-70 | the listed cities are a subsequence of the list; for a non-empty value it opens exactly when something is listed; for an empty one it opens on every city |
| CityAutocomplete.Dropdown | src/components/CityAutocomplete.tsx:88 | the dropdown shows cities exactly when it is open and its list is non-empty, and then shows that list |
| CityAutocomplete.ClearedValueCloses | src/components/CityAutocomplete.tsx:36-38 | an empty value lists every city and closes the dropdown |
| CityAutocomplete.ValueChangeOpensOnMatches | src/components/CityAutocomplete.tsx:29-35 | after a non-empty value, the dropdown is open exactly when some city matches and the value is not the first match's name, and shows only matching cities |
| CityAutocomplete.OpenOnEarlierMatch | src/components/CityAutocomplete.tsx:35 | when the value is not the first match's name, the dropdown is open on the matches |
| CityAutocomplete.ChoosingLaterCityReopens | src/components/CityAutocomplete.tsx:35 | choosing a city that an earlier-listed city also matches leaves the dropdown open on both |
| CityAutocomplete.NewYorkMatchesYork | src/components/CityAutocomplete.tsx:31-32 | "New York" matches the value "York" |
| CityAutocomplete.FocusEmptyShowsAll | src/components/CityAutocomplete.tsx:66-69 | focusing an empty input opens the dropdown on every city |
| CityAutocomplete.FocusOpensWheneverValueWould | src/components/CityAutocomplete.tsx:58-65 | focus lists the same cities as the value effect, and opens exactly when some city matches |
| CityAutocomplete.DropdownListsMatchingCities | src/components/CityAutocomplete.tsx:88-90 | the dropdown lists only cities from the list, matching the value when there is one |
| CityAutocomplete.Autocomplete.constructor | src/components/CityAutocomplete.tsx:24-25 | the component starts closed, listing nothing |
| CityAutocomplete.Autocomplete.ValueChanged | src/components/CityAutocomplete.tsx:28-40 | the new state is `OnValue` of the value, and the list stays a subsequence of the cities |
| CityAutocomplete.Autocomplete.Focus | src/components/CityAutocomplete.tsx:58-70 | the new state is `OnFocus` of the value, and the list stays a subsequence of the cities |
| CityAutocomplete.Autocomplete.Select | src/components/CityAutocomplete.tsx:53-56 | the city's name and code go to the parent; the dropdown closes and its list is kept, still a subsequence of the cities |
| CityAutocomplete.Autocomplete.Shown | src/components/CityAutocomplete.tsx:88 | the list is shown exactly while open on a non-empty list, and otherwise nothing; in a valid state it holds only cities from the list, in list order |

## Left out

- The network, `serve`, `Deno.env.get` and `console.*` are not modelled. The provider's answers and the environment are parameters, and logging has no effect in the model.
- `Date.now()` is not modelled. Its two readings in `getAmadeusToken` are the parameters `now` and `issuedAt`.
- `req.json()`, `response.json()` and `JSON.stringify` are not modelled. The decoded body, or the message of its decoding error, is a parameter, and the answer body is a datatype, not JSON text.
- Reading the error text of a non-ok answer (`response.text()`) is left out. It is only logged, and a failure while reading it is not modelled.
- The 500 answer for a thrown value that is not an `Error` ("Unknown error") is left out. Every failure in the model carries a message.
- Concurrent invocations sharing the token slot are left out. Each model run is one sequential caller.
- `parseFloat` of the price is left out. `Normalizer.FlightOption` keeps the text passed to `parseFloat` (`priceText`), with its "0" default.
- Offers without an `itineraries` list, or whose first itinerary has no `segments` list, are not modelled. The code throws on them; the model's lists are always present, possibly empty.
- Carrier codes that name properties inherited by every object (such as `toString`) are not modelled. The carrier dictionary is a plain map.
- Case folding covers ASCII letters only, not the full Unicode `toLowerCase`.
- Trimming covers the ASCII white space only, not the Unicode space characters `trim` also removes.
- The percent-encoding and serialisation of the query string is left out. The query is modelled as its list of name/value entries.
- The icon and gradient of each section heading are left out. They are rendering details.
- The click-outside listener of the autocomplete is left out. It is a DOM event handler.
- The input's `onChange(e.target.value, '')` passthrough is left out. It only forwards the typed value to the parent.
- TransportSection.SortedOptions: for land lists that mix other kinds with buses and trains, only the permutation is claimed. The comparator is then inconsistent, and the order `Array.prototype.sort` produces is implementation-defined. The model's stable insertion sort fixes one such order.
- FlightQuery.SearchOffers: the passenger counts are always present integers. A fractional count (`(1.5).toString()` is "1.5") cannot be expressed. In the code, an absent or null `adults` or `children` makes `toString()` throw a TypeError (index.ts:70-71). That happens after the token is obtained, so no search is sent and the answer is 500. The model does not express that path.
- SearchHandler.SearchUsesObtainedToken: a complete request with a token sends exactly one search only because the counts are always present integers; see the line above.
- SearchHandler.SuccessIffEveryStepSucceeds: the same assumption about the passenger counts applies.
- Credentials.Acquire: the token answer always carries `access_token` and `expires_in` (index.ts:56-59). A missing `access_token` is cached and returned as `undefined` until the computed expiry, so the search is sent with `Bearer undefined` (index.ts:62, 86) and the entry is reused until then. A missing `expires_in` gives a NaN expiry, so the entry is never reused and every call refreshes. The model covers neither case.
- Decimal.IntToString: every integer renders in positional decimal. JavaScript writes numbers of magnitude 1e21 or more in exponent form, which the model does not cover.
