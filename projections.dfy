/**
 * The response shapes the controller builds from Cafe entities: the detail
 * shape of getCafeById, the search shape of searchCafe, and the map-pin
 * shape of getCafesInArea and getCafesByMultipleTags. Each list projection
 * maps element by element, in the order the service returned. Reading a
 * photo dereferences the photo and then encodes its payload, so a null
 * photo or a null payload raises a NullPointerException.
 */
module Projections {
  import opened Wrappers
  import opened Base64
  import opened Domain

  /** A photo that can be encoded: neither it nor its payload is null. */
  predicate Readable(p: Option<Image>) {
    p.Some? && p.value.imageData.Some?
  }

  /** The payload of a readable photo. */
  function Payload(p: Option<Image>): seq<byte>
    requires Readable(p)
  {
    p.value.imageData.value
  }

  /** Base64.getEncoder().encodeToString(image.getImageData()). */
  function EncodePhoto(p: Option<Image>): (r: Result<string, Failure>)
    ensures r.Failure? <==> !Readable(p)
    ensures r.Failure? ==> r.error == NullPointer
    ensures r.Success? ==> r.value == Encode(Payload(p))
    ensures r.Success? ==> Decode(r.value) == p.value.imageData
  {
    if Readable(p) then
      DecodeEncode(Payload(p));
      Success(Encode(Payload(p)))
    else Failure(NullPointer)
  }

  /**
   * Every photo encoded, one string per photo, in the stored order; the
   * stream fails when one photo cannot be read.
   */
  function EncodeAll(imgs: seq<Option<Image>>): (r: Result<seq<string>, Failure>)
    ensures r.Failure? <==> exists i :: 0 <= i < |imgs| && !Readable(imgs[i])
    ensures r.Failure? ==> r.error == NullPointer
    ensures r.Success? ==> |r.value| == |imgs|
    ensures r.Success? ==> forall i :: 0 <= i < |imgs| ==> r.value[i] == Encode(Payload(imgs[i]))
  {
    if imgs == [] then Success([])
    else
      match EncodePhoto(imgs[0])
      case Failure(e) => Failure(e)
      case Success(s) =>
        match EncodeAll(imgs[1..])
        case Failure(e) => Failure(e)
        case Success(ss) => Success([s] + ss)
  }

  /** The map-pin fields other than the image are the cafe's own. */
  predicate PinCarries(c: Cafe, p: CafeHomeDto) {
    && p.cafeId == c.cafeId && p.cafeName == c.cafeName
    && p.latitude == c.latitude && p.longitude == c.longitude
    && p.address == c.address && p.averageRating == c.averageRating
    && p.openingHours == c.openingHours
    && forall k :: PinTag(p, k) == CafeTag(c, k)
  }

  function PinTag(p: CafeHomeDto, k: TagKey): Option<Tag> {
    match k
    case Wifi => p.wifi
    case Outlets => p.outlets
    case Desk => p.desk
    case Restroom => p.restroom
    case Parking => p.parking
  }

  /**
   * The detail shape (getCafeById): every field of the cafe, the single-image
   * slot null, and every photo encoded in order. The image list is
   * dereferenced without a null check.
   */
  function Detail(c: Cafe): (r: Result<CafeDto, Failure>)
    ensures r.Failure? <==>
      c.images.None? || exists i :: 0 <= i < |c.images.value| && !Readable(c.images.value[i])
    ensures r.Failure? ==> r.error == NullPointer
    ensures r.Success? ==>
      && r.value.cafeId == c.cafeId && r.value.kakaoPlaceId == c.kakaoPlaceId
      && r.value.cafeName == c.cafeName && r.value.latitude == c.latitude
      && r.value.longitude == c.longitude && r.value.address == c.address
      && r.value.phoneNumber == c.phoneNumber && r.value.websiteUrl == c.websiteUrl
      && r.value.updateAt == c.updateAt && r.value.averageRating == c.averageRating
      && r.value.openingHours == c.openingHours
      && (forall k :: DtoTag(r.value, k) == CafeTag(c, k))
      && r.value.image.None?
      && r.value.images.Some?
      && |r.value.images.value| == |c.images.value|
      && forall i :: 0 <= i < |c.images.value| ==>
           r.value.images.value[i] == Encode(Payload(c.images.value[i]))
  {
    match c.images
    case None => Failure(NullPointer)
    case Some(imgs) =>
      match EncodeAll(imgs)
      case Failure(e) => Failure(e)
      case Success(base64Images) =>
        Success(CafeDto(c.cafeId, c.kakaoPlaceId, c.cafeName, c.latitude, c.longitude,
                        c.address, c.phoneNumber, c.websiteUrl, c.updateAt,
                        c.averageRating, c.openingHours,
                        c.wifi, c.outlets, c.desk, c.restroom, c.parking,
                        None, Some(base64Images)))
  }

  /** The payloads of the detail shape decode back to the stored photos. */
  lemma DetailImagesDecode(c: Cafe, i: int)
    requires Detail(c).Success?
    requires 0 <= i < |Detail(c).value.images.value|
    ensures c.images.Some? && i < |c.images.value| && c.images.value[i].Some?
    ensures Decode(Detail(c).value.images.value[i]) == c.images.value[i].value.imageData
  {
    DecodeEncode(Payload(c.images.value[i]));
  }

  /** The search shape (searchCafe): id, name, address and coordinates only. */
  function SearchShape(c: Cafe): CafeSearchDto {
    CafeSearchDto(c.cafeId, c.cafeName, c.address, c.latitude, c.longitude)
  }

  /** searchCafe's projection of the service's result list. */
  function SearchShapes(cs: seq<Cafe>): (r: seq<CafeSearchDto>)
    ensures |r| == |cs|
    ensures forall i :: 0 <= i < |cs| ==>
      && r[i].cafeId == cs[i].cafeId && r[i].cafeName == cs[i].cafeName
      && r[i].address == cs[i].address
      && r[i].latitude == cs[i].latitude && r[i].longitude == cs[i].longitude
  {
    if cs == [] then [] else [SearchShape(cs[0])] + SearchShapes(cs[1..])
  }

  /** Building the area pin of this cafe raises a NullPointerException. */
  predicate AreaPinFails(c: Cafe) {
    c.images.None? || (|c.images.value| > 0 && !Readable(c.images.value[0]))
  }

  /** Building the filter pin of this cafe raises a NullPointerException. */
  predicate FilterPinFails(c: Cafe) {
    c.images.Some? && |c.images.value| > 0 && !Readable(c.images.value[0])
  }

  /**
   * The map-pin image of the area query (lines 90-91): null when the list is
   * empty, else the first photo encoded; a null list is dereferenced.
   */
  function AreaPin(c: Cafe): (r: Result<CafeHomeDto, Failure>)
    ensures r.Failure? <==> AreaPinFails(c)
    ensures r.Failure? ==> r.error == NullPointer
    ensures r.Success? ==> PinCarries(c, r.value)
    ensures r.Success? ==>
      r.value.imageBase64 == if |c.images.value| == 0 then None
                             else Some(Encode(Payload(c.images.value[0])))
  {
    match c.images
    case None => Failure(NullPointer)
    case Some(imgs) =>
      if |imgs| != 0 && !Readable(imgs[0]) then Failure(NullPointer)
      else
        var imageBase64 := if |imgs| == 0 then None else Some(Encode(Payload(imgs[0])));
        Success(CafeHomeDto(c.cafeId, c.cafeName, c.latitude, c.longitude, c.address,
                            c.averageRating, c.openingHours,
                            c.wifi, c.outlets, c.desk, c.restroom, c.parking, imageBase64))
  }

  /**
   * The map-pin image of the filter query (lines 136-138): null when the list
   * is null or empty, else the first photo encoded.
   */
  function FilterPin(c: Cafe): (r: Result<CafeHomeDto, Failure>)
    ensures r.Failure? <==> FilterPinFails(c)
    ensures r.Failure? ==> r.error == NullPointer
    ensures r.Success? ==> PinCarries(c, r.value)
    ensures r.Success? ==> (r.value.imageBase64.None? <==> c.images.None? || |c.images.value| == 0)
    ensures r.Success? && r.value.imageBase64.Some? ==>
      r.value.imageBase64.value == Encode(Payload(c.images.value[0]))
  {
    if FilterPinFails(c) then Failure(NullPointer)
    else
      var imageBase64 :=
        if c.images.Some? && |c.images.value| != 0 then Some(Encode(Payload(c.images.value[0])))
        else None;
      Success(CafeHomeDto(c.cafeId, c.cafeName, c.latitude, c.longitude, c.address,
                          c.averageRating, c.openingHours,
                          c.wifi, c.outlets, c.desk, c.restroom, c.parking, imageBase64))
  }

  /** On a cafe whose image list is not null the two map-pin shapes agree. */
  lemma AreaPinIsFilterPin(c: Cafe)
    requires c.images.Some?
    ensures AreaPin(c) == FilterPin(c)
  {
  }

  /**
   * getCafesInArea's projection of the service's result list: it fails as
   * soon as one cafe's pin cannot be built.
   */
  function AreaPins(cs: seq<Cafe>): (r: Result<seq<CafeHomeDto>, Failure>)
    ensures r.Failure? <==> exists i :: 0 <= i < |cs| && AreaPinFails(cs[i])
    ensures r.Failure? ==> r.error == NullPointer
    ensures r.Success? ==> |r.value| == |cs|
    ensures r.Success? ==> forall i :: 0 <= i < |cs| ==> AreaPin(cs[i]) == Success(r.value[i])
  {
    if cs == [] then Success([])
    else
      match AreaPin(cs[0])
      case Failure(e) => Failure(e)
      case Success(p) =>
        match AreaPins(cs[1..])
        case Failure(e) => Failure(e)
        case Success(ps) => Success([p] + ps)
  }

  /**
   * getCafesByMultipleTags' projection of the service's result list: it fails
   * as soon as one cafe's first photo cannot be read.
   */
  function FilterPins(cs: seq<Cafe>): (r: Result<seq<CafeHomeDto>, Failure>)
    ensures r.Failure? <==> exists i :: 0 <= i < |cs| && FilterPinFails(cs[i])
    ensures r.Failure? ==> r.error == NullPointer
    ensures r.Success? ==> |r.value| == |cs|
    ensures r.Success? ==> forall i :: 0 <= i < |cs| ==> FilterPin(cs[i]) == Success(r.value[i])
  {
    if cs == [] then Success([])
    else
      match FilterPin(cs[0])
      case Failure(e) => Failure(e)
      case Success(p) =>
        match FilterPins(cs[1..])
        case Failure(e) => Failure(e)
        case Success(ps) => Success([p] + ps)
  }

  /** A map pin carries one encoded photo where the detail shape carries them all. */
  lemma PinImageIsFirstDetailImage(c: Cafe)
    requires Detail(c).Success? && |c.images.value| > 0
    ensures FilterPin(c).Success? && FilterPin(c).value.imageBase64.Some?
    ensures FilterPin(c).value.imageBase64.value == Detail(c).value.images.value[0]
    ensures |Detail(c).value.images.value| == |c.images.value|
  {
  }
}
