/**
 * The controller's endpoints that look a cafe up by id: getCafeById,
 * updateCafeTags and getCafeTags, over a repository held as a map from id
 * to entity.
 */
module Controller {
  import opened Wrappers
  import opened Domain
  import opened Projections
  import opened TagAdmin

  /** Every stored entity carries the id it is stored under. */
  predicate KeyedById(store: map<int, Cafe>) {
    forall id :: id in store ==> store[id].cafeId == id
  }

  /** The repository after updateCafeTags: the merged entity saved, or nothing at all. */
  function AfterUpdate(store: map<int, Cafe>, cafeId: int, dto: CafeDto): (r: map<int, Cafe>)
    ensures r.Keys == store.Keys
    ensures forall id :: id in store && id != cafeId ==> r[id] == store[id]
    ensures cafeId !in store ==> r == store
    ensures cafeId in store ==> r[cafeId] == MergeTags(store[cafeId], dto)
  {
    if cafeId in store then store[cafeId := MergeTags(store[cafeId], dto)] else store
  }

  /** Repeating an update leaves the repository as one update does. */
  lemma AfterUpdateIdempotent(store: map<int, Cafe>, cafeId: int, dto: CafeDto)
    ensures AfterUpdate(AfterUpdate(store, cafeId, dto), cafeId, dto) == AfterUpdate(store, cafeId, dto)
  {
    if cafeId in store {
      MergeIdempotent(store[cafeId], dto);
    }
  }

  /** An update keeps every entity under its own id. */
  lemma AfterUpdateKeepsKeyedById(store: map<int, Cafe>, cafeId: int, dto: CafeDto)
    requires KeyedById(store)
    ensures KeyedById(AfterUpdate(store, cafeId, dto))
  {
  }

  class CafeController {
    /** The rows of the cafe repository, by id. */
    var cafes: map<int, Cafe>

    constructor (initial: map<int, Cafe>)
      ensures cafes == initial
    {
      cafes := initial;
    }

    /**
     * getCafeById. The service lookup is not part of this model; it is taken
     * to return the stored entity or raise the not-found failure.
     */
    method GetCafeById(cafeId: int) returns (r: Result<CafeDto, Failure>)
      ensures cafeId !in cafes ==> r == Failure(NotFound)
      ensures cafeId in cafes ==> r == Detail(cafes[cafeId])
      ensures KeyedById(cafes) && r.Success? ==> r.value.cafeId == cafeId
    {
      if cafeId !in cafes {
        return Failure(NotFound);
      }
      var cafe := cafes[cafeId];
      r := Detail(cafe);
    }

    /**
     * updateCafeTags: load the entity, run the five guarded setters, save.
     * An absent id raises IllegalArgumentException before anything is saved.
     */
    method UpdateCafeTags(cafeId: int, dto: CafeDto) returns (r: Result<Cafe, Failure>)
      modifies this
      ensures cafeId !in old(cafes) ==> r == Failure(IllegalArgument)
      ensures cafeId in old(cafes) ==> r == Success(MergeTags(old(cafes)[cafeId], dto))
      ensures cafes == AfterUpdate(old(cafes), cafeId, dto)
    {
      if cafeId !in cafes {
        return Failure(IllegalArgument);
      }
      var cafe := cafes[cafeId];
      if dto.wifi.Some? { cafe := cafe.(wifi := dto.wifi); }
      if dto.outlets.Some? { cafe := cafe.(outlets := dto.outlets); }
      if dto.desk.Some? { cafe := cafe.(desk := dto.desk); }
      if dto.restroom.Some? { cafe := cafe.(restroom := dto.restroom); }
      if dto.parking.Some? { cafe := cafe.(parking := dto.parking); }
      cafes := cafes[cafeId := cafe];
      r := Success(cafe);
    }

    /**
     * getCafeTags: load the entity (not-found failure when absent) and fill a
     * map with one entry per tag.
     */
    method GetCafeTags(cafeId: int) returns (r: Result<map<string, string>, Failure>)
      ensures cafeId !in cafes ==> r == Failure(NotFound)
      ensures cafeId in cafes ==> r == Success(TagMap(cafes[cafeId]))
    {
      if cafeId !in cafes {
        return Failure(NotFound);
      }
      var cafe := cafes[cafeId];
      var tags: map<string, string> := map[];
      tags := tags["wifi" := NameOrDefault(cafe.wifi)];
      tags := tags["outlets" := NameOrDefault(cafe.outlets)];
      tags := tags["desk" := NameOrDefault(cafe.desk)];
      tags := tags["restroom" := NameOrDefault(cafe.restroom)];
      tags := tags["parking" := NameOrDefault(cafe.parking)];
      r := Success(tags);
    }
  }

  /**
   * Saving a body that sets outlets and leaves the other tags null changes
   * outlets only; the tag map then shows the new outlets value and the old
   * wifi value.
   */
  lemma OutletsOnlyUpdate(store: map<int, Cafe>, cafeId: int, dto: CafeDto)
    requires cafeId in store
    requires dto.wifi.None? && dto.desk.None? && dto.restroom.None? && dto.parking.None?
    requires dto.outlets == Some(Available)
    ensures AfterUpdate(store, cafeId, dto)[cafeId] == store[cafeId].(outlets := Some(Available))
    ensures TagMap(AfterUpdate(store, cafeId, dto)[cafeId])["outlets"] == "AVAILABLE"
    ensures TagMap(AfterUpdate(store, cafeId, dto)[cafeId])["wifi"] == TagMap(store[cafeId])["wifi"]
  {
  }
}
