# TagCafe cafe controller, modelled in Dafny

This project models the rules inside the cafe controller of the TagCafe
back end (`CafeController.java`). The controller serves a directory of cafes,
each with five amenity tags (wifi, outlets, desk, restroom, parking) and a
list of photos. The model covers:

- the filter endpoint `getCafesByMultipleTags`: the length check of the two
  request lists, the loop that collects the pairs whose value is neither null
  nor empty, and the service call, which receives the request lists unchanged;
- the detail, search and map-pin response shapes, with every photo Base64
  encoded in the detail shape and only the first one in a map pin;
- the partial tag update `updateCafeTags`, where a null field in the request
  body leaves the stored tag unchanged;
- the tag read `getCafeTags`, a five-key map whose values are enum names, or
  `"-"` for an unset tag;
- the lookup failures: an absent id makes the tag update raise
  IllegalArgumentException and makes the tag read fail with not-found. In
  both cases nothing is saved. The detail read's not-found failure comes from
  a service that is not shown, and the model assumes it.

Files and modules:

- `wrappers.dfy` (`Wrappers`): `Option` stands for a nullable Java reference,
  and `Result` for a value or a thrown exception.
- `base64.dfy` (`Base64`): the RFC 4648 section 4 encoder that
  `Base64.getEncoder().encodeToString` implements. It comes with a decoder,
  used only to prove that encoding loses nothing.
- `domain.dfy` (`Domain`): the Cafe entity, the DTO shapes and the failures.
  A null tag column is `None`, and so is a null image list.
- `projections.dfy` (`Projections`): the response shapes.
- `tag_filter.dfy` (`TagFilter`): the filter endpoint.
- `tag_admin.dfy` (`TagAdmin`): the tag merge and the tag map.
- `controller.dfy` (`Controller`): the class `CafeController`, which holds
  the repository as a map from id to entity, and its three lookup endpoints.

Calls into code that is not shown are handled as follows:

- the filter service is a function argument (`TagFilter.Service`);
- for keyword search and the area query, the projections take the list the
  service returned;
- the service's `getCafeById` is not a parameter: it is assumed to be a
  repository lookup that fails with not-found (see "Left out").

The model follows the code where it departs from what the code itself
suggests:

- the filter service receives the uncleaned lists, although the comment at
  line 122 says null and empty filters are removed and the lists
  `validTagNames`/`validValues` are built for that and never read (see
  Findings);
- an update of an absent id raises IllegalArgumentException (line 175),
  whereas the tag read of the same id raises a NOT_FOUND status (line 199);
- only the filter path checks the image list for null (line 136). The detail
  path (line 34) and the area path (line 90) dereference it. A null photo that
  is read, or its null payload passed to the encoder, fails on every path:
  every photo is read on the detail path (line 35), and only the first one
  on the area and filter paths (lines 91, 137). The model shows each of these as a `NullPointer` failure.

## Model

| member | source | states |
|---|---|---|
| Base64.Encode | src/main/java/com/Minjin/TagCafe/controller/CafeController.java:34-36 | the encoding of n bytes has 4·⌈n/3⌉ characters, each from the RFC 4648 alphabet or the pad '=' |
| Base64.DecodeEncode | src/main/java/com/Minjin/TagCafe/controller/CafeController.java:34-36 | decoding an encoded payload gives back exactly that payload |
| Base64.EncodeInjective | src/main/java/com/Minjin/TagCafe/controller/CafeController.java:34-36 | two payloads with the same Base64 text are equal |
| Domain.TagName | src/main/java/com/Minjin/TagCafe/controller/CafeController.java:215 | an enum constant's name is non-empty and never "-" |
| Projections.EncodePhoto | src/main/java/com/Minjin/TagCafe/controller/CafeController.java:35 | encoding one photo fails with a null-pointer failure exactly when the photo or its payload is null, and otherwise gives the Base64 text of the payload, which decodes back to that payload |
| Projections.EncodeAll | src/main/java/com/Minjin/TagCafe/controller/CafeController.java:34-36 | fails with a null-pointer failure exactly when some photo or its payload is null; otherwise one encoded string per photo, entry i the encoding of photo i |
| Projections.Detail | src/main/java/com/Minjin/TagCafe/controller/CafeController.java:32-57 | the detail shape fails with a null-pointer failure exactly when the image list, one of its photos or one of their payloads is null; otherwise it carries every field and all five tags of the cafe, leaves the single-image slot null, and has one encoded photo per stored photo, in order |
| Projections.DetailImagesDecode | src/main/java/com/Minjin/TagCafe/controller/CafeController.java:34-36 | every photo in a successful detail shape decodes back to the stored payload |
| Projections.SearchShapes | src/main/java/com/Minjin/TagCafe/controller/CafeController.java:66-74 | the search list has the input's length and order; entry i has cafe i's id, name, address and coordinates (and no tags or images) |
| Projections.AreaPin | src/main/java/com/Minjin/TagCafe/controller/CafeController.java:89-106 | an area pin fails with a null-pointer failure exactly when the image list is null, or its first photo or that photo's payload is null; otherwise it carries the cafe's id, name, coordinates, address, rating, hours and tags, and its image is null for no photos or else the first photo encoded |
| Projections.AreaPins | src/main/java/com/Minjin/TagCafe/controller/CafeController.java:88-108 | the area list fails exactly when some cafe's pin fails; otherwise it has the input's length and entry i is cafe i's pin |
| Projections.FilterPin | src/main/java/com/Minjin/TagCafe/controller/CafeController.java:135-154 | a filter pin fails with a null-pointer failure exactly when the list holds a first photo that, or whose payload, is null; otherwise it carries the same fields as an area pin, and its image is null exactly when the list is null or empty, else the first photo encoded |
| Projections.FilterPins | src/main/java/com/Minjin/TagCafe/controller/CafeController.java:135-155 | the filter list fails exactly when some cafe's pin fails; otherwise it has the input's length and order, and entry i is cafe i's pin |
| Projections.AreaPinIsFilterPin | src/main/java/com/Minjin/TagCafe/controller/CafeController.java:136-138 | when the image list is not null, the area pin and the filter pin are the same, failure included |
| Projections.PinImageIsFirstDetailImage | src/main/java/com/Minjin/TagCafe/controller/CafeController.java:90-91 | for a cafe with photos whose detail shape succeeds, the filter pin succeeds and its image is the first of the detail shape's images, and the detail shape has all of them |
| TagFilter.UsableIndices | src/main/java/com/Minjin/TagCafe/controller/CafeController.java:126-127 | lists, in ascending order, exactly the positions whose value is neither null nor empty |
| TagFilter.CleanedKeepsUsablePairs | src/main/java/com/Minjin/TagCafe/controller/CafeController.java:123-131 | the cleaned lists are equally long, and entry j of each is the name or value of the j-th usable pair of the request |
| TagFilter.CleanedValuesAreUsable | src/main/java/com/Minjin/TagCafe/controller/CafeController.java:127-129 | no cleaned value is empty |
| TagFilter.CleanFilterPairs | src/main/java/com/Minjin/TagCafe/controller/CafeController.java:123-131 | the cleaning loop builds exactly the lists `Cleaned` describes |
| TagFilter.GetCafesByMultipleTags | src/main/java/com/Minjin/TagCafe/controller/CafeController.java:116-158 | responds with a bad request exactly when the lists differ in length; otherwise responds with the pins of what the service returns for the unfiltered request lists |
| TagFilter.MismatchIgnoresService | src/main/java/com/Minjin/TagCafe/controller/CafeController.java:118-120 | on a length mismatch the response is a bad request whatever the service would answer |
| TagFilter.ResponseDependsOnRawQueryOnly | src/main/java/com/Minjin/TagCafe/controller/CafeController.java:133 | two services that answer the same for the request lists give the same response, so the cleaned lists have no effect |
| TagFilter.EmptyPairReachesService | src/main/java/com/Minjin/TagCafe/controller/CafeController.java:133 | for tagNames ["wifi","desk"] and values ["","available"], the cleaned lists are ["desk"] and ["available"], but the service still receives the empty wifi pair, and the response differs from the cleaned endpoint's |
| TagFilter.GetCafesByMultipleTagsCleaned | src/main/java/com/Minjin/TagCafe/controller/CafeController.java:122-133 | the corrected endpoint: a bad request exactly on a length mismatch, otherwise the pins of what the service returns for the cleaned lists |
| TagFilter.CleanedQueryHasOnlyUsableValues | src/main/java/com/Minjin/TagCafe/controller/CafeController.java:122-133 | the corrected endpoint queries with lists of equal length whose every value is neither null nor empty |
| TagAdmin.MergeTags | src/main/java/com/Minjin/TagCafe/controller/CafeController.java:177-181 | each of the five tags takes the incoming value when it is non-null and keeps the stored value otherwise; every non-tag field is unchanged |
| TagAdmin.MergeIdempotent | src/main/java/com/Minjin/TagCafe/controller/CafeController.java:177-181 | applying the same update twice gives the same entity as applying it once |
| TagAdmin.MergeReadsOnlyTags | src/main/java/com/Minjin/TagCafe/controller/CafeController.java:177-181 | request bodies with the same five tags give the same result; their other fields are ignored |
| TagAdmin.MergeOfNullsIsIdentity | src/main/java/com/Minjin/TagCafe/controller/CafeController.java:177-181 | a body whose five tags are all null leaves the cafe as it was, so no tag can be cleared |
| TagAdmin.NameOrDefault | src/main/java/com/Minjin/TagCafe/controller/CafeController.java:214-216 | the result is "-" exactly when the tag is null; otherwise it is the constant's name |
| TagAdmin.TagMap | src/main/java/com/Minjin/TagCafe/controller/CafeController.java:201-208 | the map has exactly the keys wifi, outlets, desk, restroom and parking; each maps to its tag's name, or to "-" |
| TagAdmin.TagMapRecoversTags | src/main/java/com/Minjin/TagCafe/controller/CafeController.java:204-208 | reading an entry back ("-" as null, otherwise the named constant) gives the cafe's tag |
| TagAdmin.TagMapDeterminesTags | src/main/java/com/Minjin/TagCafe/controller/CafeController.java:201-210 | two cafes have equal tag maps exactly when all five of their tags are equal |
| TagAdmin.UntaggedCafeTagMap | src/main/java/com/Minjin/TagCafe/controller/CafeController.java:203-208 | a cafe with no tag set maps all five keys to "-" |
| Controller.AfterUpdate | src/main/java/com/Minjin/TagCafe/controller/CafeController.java:174-183 | an update keeps the repository's ids; the entry under a present id becomes the merged entity, every other cafe stays as it was, and an absent id leaves the repository unchanged |
| Controller.AfterUpdateIdempotent | src/main/java/com/Minjin/TagCafe/controller/CafeController.java:177-183 | saving the same update twice leaves the repository as saving it once |
| Controller.AfterUpdateKeepsKeyedById | src/main/java/com/Minjin/TagCafe/controller/CafeController.java:183 | after an update every entity is still stored under its own id |
| Controller.OutletsOnlyUpdate | src/main/java/com/Minjin/TagCafe/controller/CafeController.java:177-181 | a body that sets only outlets to AVAILABLE changes outlets only; the tag map then shows "AVAILABLE" for outlets and the old wifi entry |
| Controller.CafeController.GetCafeById | src/main/java/com/Minjin/TagCafe/controller/CafeController.java:32-57 | fails with not-found for an absent id; otherwise returns the stored cafe's detail shape, whose id is the requested one when every cafe is stored under its own id |
| Controller.CafeController.UpdateCafeTags | src/main/java/com/Minjin/TagCafe/controller/CafeController.java:172-185 | an absent id raises IllegalArgumentException and saves nothing; otherwise returns the merged entity and saves it in place of the old one, with nothing else changed |
| Controller.CafeController.GetCafeTags | src/main/java/com/Minjin/TagCafe/controller/CafeController.java:197-211 | fails with not-found for an absent id; otherwise returns the stored cafe's tag map |

## Left out

- HTTP plumbing is not modelled: Spring annotations, `ResponseEntity` status
  codes, CORS and Swagger metadata. The failures are kept as values of
  `Domain.Failure`, without the status codes they turn into.
- `addCafe` and `getAllCafes` are not modelled. Each only hands the service's
  result back, and that service code is not shown.
- The service and repository internals (keyword search, the area bounding-box
  query, multi-tag matching, saving rules) are not part of this model. They
  appear only as parameters, or as a map-based store.
- Latitude and longitude are Java `double`s (the controller's parameters at
  lines 82-85), kept as `real`. The rating and the update timestamp come from
  an entity class that is not part of this model, so their Java types are
  unknown; they are kept as `real` and `int`. All four are only passed
  through, so rounding and timestamp formats play no part here.
- The entity's tag enum classes are not part of this model. `Domain.Tag` is a
  stand-in with three constants, with `Domain.TagName` and `Domain.TagOfName`
  as their names table. The general lemmas rely only on that table: names
  distinct, non-empty, different from "-", and read back by `TagOfName`. The
  example `Controller.OutletsOnlyUpdate` also uses the literal name
  "AVAILABLE".
- Controller.CafeController.GetCafeById: the service's `getCafeById` is not
  part of this model. It is assumed to look the id up in the repository and
  to fail with not-found when the id is absent.
- Null strings in pass-through fields and a null path id are not modelled.
  These values are copied, never inspected.
- The update mutates a managed entity and then saves it. The model treats this
  as replacing the stored value, so persistence-context aliasing is not
  captured.
- The Base64 decoder is not Java's: it exists only to state that encoding is
  lossless.

## Findings

| source | as written | input that shows it | evidently intended | confidence | as-written member | corrected member |
|---|---|---|---|---|---|---|
| src/main/java/com/Minjin/TagCafe/controller/CafeController.java:133 | the service receives the request lists `tagNames`/`values`; the cleaned lists built on lines 123-131 are never used | tagNames = ["wifi","desk"], values = ["","available"]: the service also receives the pair wifi = "" | pass `validTagNames`/`validValues`, so that pairs with a null or empty value never reach the query | medium, not executed (the unseen service might drop empty values itself) | TagFilter.EmptyPairReachesService | TagFilter.GetCafesByMultipleTagsCleaned |
