# Location privacy and marker placement, modelled in Dafny

This project models the location pipeline of a small community-directory web
application. Registrants type a city or ZIP code. The geocoder resolves it
through an external provider and rounds it to three decimals for privacy. An
optional variant moves the point by a displacement derived from the user id
and rounds again to four decimals. On the map page, stored profiles are
filtered by haversine distance from a reference point. The kept profiles are
grouped by their exact coordinates. Profiles that share a point are spread
onto a small ring so that each marker stays clickable.

Modules (one file each):

- `Optional` — `Option`, standing for JavaScript `null`.
- `Int32` — the ECMAScript ToInt32 wrap-around.
- `Rounding` — `Math.round(x * 10^d) / 10^d` over exact reals.
- `Geometry` — coordinates, `Math.PI`, and the trigonometric functions. These are passed in as a `Trig` value, and properties that need them name the law they assume.
- `Geocoding` — `lib/geocoding.ts`: the user-id hash, the deterministic offset, `geocodeLocation`, and `geocodeLocationWithOffset`.
- `Profiles` — the `Profile` record and the truthiness test on coordinates.
- `Sequences` — `filter` and subsequences.
- `Proximity` — `calculateDistance` and `filteredProfiles`.
- `Grouping` — the `profilesWithPositions` reduce.
- `Markers` — `createOffsetPosition`, `markersToRender`, and the whole pipeline.
- `Contact` — `formatContact`.

Modelling choices:

- The provider is a function from query text to a `Response`. `Failed` stands for a thrown network or JSON error. `Answered` carries the result list, with `lat`/`lon` already read as numbers.
- A user id is a sequence of UTF-16 code units. That is what `charCodeAt` reads; Dafny strings hold Unicode scalar values instead.
- The hash step is modelled as written: `ToInt32(ToInt32(ToInt32(h) * 32) - h + c)`. The contract of `HashStep` proves it equals `ToInt32(31 * h + c)`.
- Profile coordinates are `Option<real>`, because the store may return `null`. A coordinate is falsy when it is missing or exactly zero.
- The source groups by the string key `${latitude},${longitude}`. The model uses the coordinate pair itself, since distinct stored values give distinct strings.

Two behaviours of the code are easy to misread:

- The offset distance is `((seed % 1000) / 1000) * 0.005`. It lies in [0, 0.005) and never reaches the maximum (`OffsetDistance`).
- The coordinate test is JavaScript truthiness. A profile with latitude or longitude exactly `0` is dropped in both branches of the filter, not only one with a missing value (`FilterProfiles`).

## Model

| member | source | states |
|---|---|---|
| Int32.ToInt32 | lib/geocoding.ts:8 | the result is the unique signed 32-bit value congruent to the input modulo 2^32; 32-bit inputs are unchanged |
| Int32.ToInt32Congruent | lib/geocoding.ts:7-8 | inputs congruent modulo 2^32 wrap to the same 32-bit value |
| Geocoding.ShiftLeft5 | lib/geocoding.ts:7 | `h << 5` is a 32-bit value congruent to 32·h modulo 2^32 |
| Geocoding.HashStep | lib/geocoding.ts:7-8 | one loop turn, shift-subtract-add then `& itself`, is a 32-bit value equal to ToInt32(31·h + c) |
| Geocoding.Hash | lib/geocoding.ts:4-9 | the left-fold hash is a signed 32-bit value after every step, and the empty id hashes to 0 |
| Geocoding.HashAppend | lib/geocoding.ts:5-9 | appending a code unit c turns hash h into ToInt32(31·h + c) |
| Geocoding.ComputeHash | lib/geocoding.ts:4-9 | the loop over `charCodeAt` computes exactly the fold Hash and stays in the 32-bit range |
| Geocoding.Seed | lib/geocoding.ts:12 | `Math.abs(hash)` is non-negative and at most 2^31, reaching 2^31 exactly for hash -2^31 (no overflow) |
| Geocoding.AngleDegrees | lib/geocoding.ts:13 | the angle in degrees lies in [0, 360) and is congruent to the seed modulo 360 |
| Geocoding.OffsetDistance | lib/geocoding.ts:14 | the distance lies in [0, 0.005), never reaching 0.005, and is zero exactly when the seed is a multiple of 1000 |
| Geocoding.DeterministicOffset | lib/geocoding.ts:2-24 | an id whose seed is a multiple of 1000 leaves the base point unchanged; OffsetBySeedWithinRadius states how far any other id moves it |
| Geocoding.OffsetAngle | lib/geocoding.ts:13 | the angle in radians lies in [0, 2π) |
| Geocoding.OffsetBySeed | lib/geocoding.ts:13-23 | a seed that is a multiple of 1000 leaves the base point unchanged; OffsetBySeedWithinRadius states the length of the displacement |
| Geocoding.DeterministicOffsetUnmoved | lib/geocoding.ts:12-23 | an id whose seed is a multiple of 1000 leaves the base point exactly unchanged, whatever sin and cos return |
| Geocoding.DeterministicOffsetEmptyId | lib/geocoding.ts:4-23 | the empty id hashes to 0, has seed 0, and leaves the base point unchanged |
| Geocoding.OffsetBySeedWithinRadius | lib/geocoding.ts:13-23 | if sin²+cos²=1, the displacement has length exactly OffsetDistance(seed): strictly inside the 0.005° circle, each axis moving less than 0.005 |
| Geometry.Displace | lib/geocoding.ts:17-23 | moving a zero distance returns the base point |
| Geometry.DisplaceDistance | lib/geocoding.ts:17-18 | if sin²+cos²=1, (cos a·d, sin a·d) has squared length d² |
| Geometry.DisplaceAxisBound | lib/geocoding.ts:17-18 | if sin²+cos²=1, each axis moves by at most d |
| Geometry.DisplaceWithin | lib/geocoding.ts:17-23 | if sin²+cos²=1 and 0 ≤ d < bound, the moved point is strictly inside the circle of radius bound, each axis moving less than bound |
| Rounding.RoundHalfUp | lib/geocoding.ts:42-43 | `Math.round(y)` lies in (y - 1/2, y + 1/2], halves going up |
| Rounding.Quantize | lib/geocoding.ts:42-43 | the rounded value lies on the 10^-d grid and within (x - 0.5·10^-d, x + 0.5·10^-d] |
| Rounding.QuantizeUnique | lib/geocoding.ts:42-43 | that window holds exactly one grid point, so the contract determines the rounding |
| Rounding.QuantizeFixedPoint | lib/geocoding.ts:64-65 | rounding leaves x unchanged if and only if x already lies on the grid |
| Rounding.QuantizeIdempotent | lib/geocoding.ts:64-65 | rounding twice to the same number of decimals equals rounding once |
| Rounding.OnGridRefines | lib/geocoding.ts:42-43 | a value on the three-decimal grid also lies on the four-decimal grid (any finer multiple) |
| Geocoding.Qualify | lib/geocoding.ts:30 | the query is the user's text followed by ", Indiana, USA" |
| Geocoding.Geocode | lib/geocoding.ts:26-52 | null exactly when the call fails or returns no result; otherwise both axes of result 0 for the qualified query, each rounded to three decimals |
| Geocoding.GeocodeUsesFirstResultOnly | lib/geocoding.ts:35-44 | two responses that agree on element 0 give the same lookup, whatever follows it |
| Geocoding.GeocodeStable | lib/geocoding.ts:41-44 | a looked-up point is on the three-decimal grid, so rounding it again changes nothing |
| Geocoding.GeocodeWithOffset | lib/geocoding.ts:54-71 | null exactly when the lookup is null; otherwise the offset point, each axis rounded to four decimals |
| Geocoding.GeocodeWithOffsetNear | lib/geocoding.ts:56-66 | if sin²+cos²=1, each axis of the stored point is within 0.005 + 0.00005 (exclusive) of the looked-up point |
| Geocoding.GeocodeWithOffsetUnmoved | lib/geocoding.ts:56-66 | for an id whose seed is a multiple of 1000, the offset lookup equals the plain lookup exactly |
| Proximity.HaversineMiles | components/CommunityMap.tsx:118-128 | no contract of its own, since its values depend on the trigonometric functions; HaversineToSelf and HaversineSymmetric state its properties |
| Proximity.HaversineToSelf | components/CommunityMap.tsx:118-128 | given sin 0 = 0, √0 = 0, √1 = 1 and atan2(0, 1) = 0, a point is at distance 0 from itself |
| Proximity.HaversineSymmetric | components/CommunityMap.tsx:118-128 | given an odd sine, distance(a, b) = distance(b, a) |
| Sequences.Filter | components/CommunityMap.tsx:131-136 | `filter` keeps exactly the accepted elements, each as many times as it occurs, as an order-preserving subsequence |
| Proximity.Kept | components/CommunityMap.tsx:132-136 | no contract of its own (a predicate); FilterProfiles keeps exactly the profiles it accepts, and the three Filter lemmas below state its boundary, reference and radius behaviour |
| Proximity.FilterProfiles | components/CommunityMap.tsx:130-136 | the result is an order-preserving subsequence holding each profile as often as the input iff it has truthy coordinates and, with a reference point, lies within the radius (inclusive); every kept profile has truthy coordinates |
| Proximity.FilterBoundaryInclusive | components/CommunityMap.tsx:133-134 | a profile at exactly the radius is kept |
| Proximity.FilterIgnoresRadiusWithoutReference | components/CommunityMap.tsx:136 | without a reference point, radius and distance function do not matter, and exactly the profiles with truthy coordinates are kept |
| Proximity.FilterMonotoneInRadius | components/CommunityMap.tsx:130-136 | widening the radius never drops a profile |
| Grouping.FindGroup | components/CommunityMap.tsx:141 | the lookup finds the first group with the key, or reports none when no group has it |
| Grouping.DistinctKeys | components/CommunityMap.tsx:139-146 | the distinct keys of the input, without repeats, covering exactly the keys that occur |
| Grouping.FirstIndex | components/CommunityMap.tsx:139-146 | the position of the first profile with a key, or the length when none has it |
| Grouping.DistinctKeysFirstOccurrenceOrder | components/CommunityMap.tsx:139-146 | keys are listed in the order of their first occurrences in the input |
| Grouping.AddToGroup | components/CommunityMap.tsx:140-145 | no contract of its own; AddToGroupFlatten states that one step adds exactly the pushed profile, and AddToExistingGroup and AddNewGroup state how the groups change |
| Grouping.GroupByLocation | components/CommunityMap.tsx:139-146 | no contract of its own; GroupByLocationSpec, GroupByLocationPermutes and GroupByLocationPartition state it |
| Grouping.GroupByLocationSpec | components/CommunityMap.tsx:139-146 | the groups are one per distinct key in first-occurrence order, each holding every profile with that exact (lat, lng) in input order |
| Grouping.AddToGroupFlatten | components/CommunityMap.tsx:141-144 | one reduce step adds exactly the pushed profile to the grouped members |
| Grouping.GroupByLocationPermutes | components/CommunityMap.tsx:139-146 | the members, read group after group, are a permutation of the input of the same length |
| Grouping.GroupByLocationPartition | components/CommunityMap.tsx:139-146 | no two groups share a key, and a profile is in a group iff it is in the input and the group's key is its own |
| Markers.SpreadAngle | components/CommunityMap.tsx:71 | member i of total gets angle 2π·i/total, in [0, 2π) |
| Markers.SpreadAnglesDistinct | components/CommunityMap.tsx:71 | members get equal angles iff they have the same index; neighbours are 2π/total apart |
| Markers.OffsetPosition | components/CommunityMap.tsx:66-76 | a group of one keeps the stored point unchanged |
| Markers.OffsetPositionOnRing | components/CommunityMap.tsx:70-73 | if sin²+cos²=1, each member of a larger group sits exactly 0.001° from the shared point |
| Markers.Place | components/CommunityMap.tsx:150-153 | the marker carries the profile unchanged; PlaceMarkersPositions states where it is drawn |
| Markers.GroupMarkers | components/CommunityMap.tsx:150-153 | one marker per group member, in member order |
| Markers.MarkersToRender | components/CommunityMap.tsx:149-154 | the markers carry the grouped profiles in flattened order, one each |
| Markers.MarkerOrigin | components/CommunityMap.tsx:149-154 | every marker is member i of some group, placed with index i and that group's size |
| Markers.GroupedLocated | components/CommunityMap.tsx:139-154 | grouping kept profiles yields only profiles with coordinates, as a permutation |
| Markers.PlaceMarkers | components/CommunityMap.tsx:139-156 | the markers are a permutation of the filtered profiles, of the same length (the log line's comparison) |
| Markers.PlaceMarkersPositions | components/CommunityMap.tsx:67-76 | a profile alone at its point is drawn at its stored coordinates; with sin²+cos²=1, one sharing its point is drawn exactly 0.001° away |
| Markers.Render | components/CommunityMap.tsx:130-156 | the full pipeline draws one marker per filtered profile, as a permutation of them |
| Contact.FormatContact | components/CommunityMap.tsx:204-217 | the text is "Email: ", "Phone: " or "Facebook: " followed by the value for those tags, and the bare value for `other` and any other tag |
| Contact.FormatContactKeepsValue | components/CommunityMap.tsx:204-217 | the contact value always ends the text in full |
| Contact.FormatContactDistinguishesTypes | components/CommunityMap.tsx:204-217 | for one value, the three labelled tags give three different texts, each different from the bare value |

## Left out

- The HTTP request to the geocoding service, URL encoding, JSON parsing and `parseFloat` are not modelled. They are network and foreign calls, replaced by the `Provider` function and its `Response`.
- A provider answer that is not an array, or whose `lat`/`lon` do not parse (`NaN`), is not modelled: the model has no NaN.
- The Supabase client and its queries are not modelled: external store I/O. The map reads an already-fetched sequence of profiles.
- React state, hooks, effects, JSX, Leaflet icons and marker rendering are not modelled. They are presentation only.
- Browser geolocation is not modelled. It is a platform API that only supplies the reference point, which arrives here as a parameter.
- The numeric values of `Math.sin`, `Math.cos`, `Math.sqrt` and `Math.atan2` are not modelled. Properties that need them assume named laws: sin²+cos²=1, an odd sine, and the values at 0 and 1. Concrete distance values cannot be stated.
- Proximity.HaversineMiles: no bound or sign is stated for the distance, because those depend on the ranges of `atan2` and `sqrt`. Only identity and symmetry are proved. For the same reason, "radius 0 keeps only coincident points" is not stated.
- IEEE-754 doubles are not modelled. All arithmetic is over exact reals: `Math.round(x * 1000) / 1000`, the offset sums, and the angle products. `Math.round(y)` is taken as floor(y + 1/2).
- The conversion of numbers to the grouping key string is not modelled. Distinct reals are assumed to give distinct keys, which also holds for doubles, apart from 0 and -0. Those two cannot occur here, because zero coordinates are filtered out.
- The statistical spread of the hash, meaning how rarely two ids collide, is not modelled. It is a probabilistic claim with no exact statement.
- The `console.log`/`console.error` calls are not modelled: diagnostics only.
- `geocodeLocationWithOffset` is modelled for its own properties only. The registration flow calls `geocodeLocation` instead (app/register/page.tsx:33).
