/**
 * The tag rules of the admin update and the tag read: the null-means-
 * unchanged merge of updateCafeTags and the five-key map of getCafeTags with
 * its "-" placeholder (getEnumNameOrDefault).
 */
module TagAdmin {
  import opened Wrappers
  import opened Domain

  /** One setter guarded by a null check: the incoming value wins unless it is null. */
  function Overlay(incoming: Option<Tag>, stored: Option<Tag>): Option<Tag> {
    if incoming.Some? then incoming else stored
  }

  /** The two cafes differ at most in their five tag attributes. */
  predicate SameExceptTags(c: Cafe, r: Cafe) {
    r == c.(wifi := r.wifi, outlets := r.outlets, desk := r.desk,
            restroom := r.restroom, parking := r.parking)
  }

  /** The entity after the guarded setters of updateCafeTags. */
  function MergeTags(c: Cafe, dto: CafeDto): (r: Cafe)
    ensures forall k :: DtoTag(dto, k).Some? ==> CafeTag(r, k) == DtoTag(dto, k)
    ensures forall k :: DtoTag(dto, k).None? ==> CafeTag(r, k) == CafeTag(c, k)
    ensures SameExceptTags(c, r)
  {
    c.(wifi := Overlay(dto.wifi, c.wifi),
       outlets := Overlay(dto.outlets, c.outlets),
       desk := Overlay(dto.desk, c.desk),
       restroom := Overlay(dto.restroom, c.restroom),
       parking := Overlay(dto.parking, c.parking))
  }

  /** Sending the same update twice leaves the cafe as sending it once. */
  lemma MergeIdempotent(c: Cafe, dto: CafeDto)
    ensures MergeTags(MergeTags(c, dto), dto) == MergeTags(c, dto)
  {
  }

  /** Only the five tag fields of the request body are read. */
  lemma MergeReadsOnlyTags(c: Cafe, d1: CafeDto, d2: CafeDto)
    requires forall k :: DtoTag(d1, k) == DtoTag(d2, k)
    ensures MergeTags(c, d1) == MergeTags(c, d2)
  {
    assert d1.wifi == DtoTag(d1, Wifi) && d1.outlets == DtoTag(d1, Outlets);
    assert d1.desk == DtoTag(d1, Desk) && d1.restroom == DtoTag(d1, Restroom);
    assert d1.parking == DtoTag(d1, Parking);
  }

  /** A body whose five tags are all null changes nothing: no tag can be cleared. */
  lemma MergeOfNullsIsIdentity(c: Cafe, dto: CafeDto)
    requires forall k :: DtoTag(dto, k).None?
    ensures MergeTags(c, dto) == c
  {
    assert dto.wifi == DtoTag(dto, Wifi) && dto.outlets == DtoTag(dto, Outlets);
    assert dto.desk == DtoTag(dto, Desk) && dto.restroom == DtoTag(dto, Restroom);
    assert dto.parking == DtoTag(dto, Parking);
  }

  /** getEnumNameOrDefault: the constant's name, or "-" for null. */
  function NameOrDefault(t: Option<Tag>): (s: string)
    ensures s == "-" <==> t.None?
    ensures t.Some? ==> s == TagName(t.value)
  {
    if t.Some? then TagName(t.value) else "-"
  }

  /** The keys of the tag map. */
  const TagKeys: set<string> := {"wifi", "outlets", "desk", "restroom", "parking"}

  lemma KeyNamesAreTagKeys(s: string)
    ensures s in TagKeys <==> exists k :: KeyName(k) == s
  {
    if s in TagKeys {
      if s == "wifi" { assert KeyName(Wifi) == s; }
      else if s == "outlets" { assert KeyName(Outlets) == s; }
      else if s == "desk" { assert KeyName(Desk) == s; }
      else if s == "restroom" { assert KeyName(Restroom) == s; }
      else { assert KeyName(Parking) == s; }
    }
  }

  /** The response of getCafeTags for a stored cafe. */
  function TagMap(c: Cafe): (m: map<string, string>)
    ensures m.Keys == TagKeys
    ensures forall k :: KeyName(k) in m && m[KeyName(k)] == NameOrDefault(CafeTag(c, k))
  {
    map["wifi" := NameOrDefault(c.wifi), "outlets" := NameOrDefault(c.outlets),
        "desk" := NameOrDefault(c.desk), "restroom" := NameOrDefault(c.restroom),
        "parking" := NameOrDefault(c.parking)]
  }

  /** Reads one entry of the tag map back: "-" is null, otherwise the constant named. */
  function ParseTagValue(s: string): (t: Option<Tag>)
    ensures s == "-" ==> t.None?
  {
    if s == "-" then None else TagOfName(s)
  }

  /**
   * The tag map loses nothing: every tag, set or not, is recovered from its
   * entry, because no constant is named "-".
   */
  lemma TagMapRecoversTags(c: Cafe, k: TagKey)
    ensures ParseTagValue(TagMap(c)[KeyName(k)]) == CafeTag(c, k)
  {
    var t := CafeTag(c, k);
    if t.Some? {
      TagOfNameOfTagName(t.value);
    }
  }

  /** Two cafes have the same tag map exactly when they have the same five tags. */
  lemma TagMapDeterminesTags(c1: Cafe, c2: Cafe)
    ensures TagMap(c1) == TagMap(c2) <==> forall k :: CafeTag(c1, k) == CafeTag(c2, k)
  {
    if TagMap(c1) == TagMap(c2) {
      forall k ensures CafeTag(c1, k) == CafeTag(c2, k) {
        TagMapRecoversTags(c1, k);
        TagMapRecoversTags(c2, k);
      }
    } else {
      var s :| (s in TagMap(c1)) != (s in TagMap(c2)) || (s in TagMap(c1) && TagMap(c1)[s] != TagMap(c2)[s]);
      KeyNamesAreTagKeys(s);
      var k :| KeyName(k) == s;
      assert CafeTag(c1, k) != CafeTag(c2, k);
    }
  }

  /** A cafe with no tag set maps every key to "-". */
  lemma UntaggedCafeTagMap(c: Cafe)
    requires forall k :: CafeTag(c, k).None?
    ensures TagMap(c) == map["wifi" := "-", "outlets" := "-", "desk" := "-",
                             "restroom" := "-", "parking" := "-"]
  {
    assert c.wifi == CafeTag(c, Wifi) && c.outlets == CafeTag(c, Outlets);
    assert c.desk == CafeTag(c, Desk) && c.restroom == CafeTag(c, Restroom);
    assert c.parking == CafeTag(c, Parking);
  }
}
