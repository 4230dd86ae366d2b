/**
 * The entity and the three transfer shapes the cafe controller works with:
 * the Cafe entity, the detail shape CafeDto (also the request body of the
 * tag update), the search shape CafeSearchDTO and the map-pin shape
 * CafeHomeDTO, and the exceptions the controller raises.
 */
module Domain {
  import opened Wrappers
  import opened Base64

  /**
   * An amenity level stored in one of the five tag attributes. The enum
   * classes of the entity package are not part of this model: these three
   * constants stand in for them. The general lemmas depend only on the names
   * table below (names distinct, non-empty, different from "-", and read
   * back by TagOfName); one worked example uses the name "AVAILABLE".
   */
  datatype Tag = Available | Unavailable | Limited

  /** Java's Enum.name(): the declared name of the constant. */
  function TagName(t: Tag): (s: string)
    ensures |s| > 0 && s != "-"
  {
    match t
    case Available => "AVAILABLE"
    case Unavailable => "UNAVAILABLE"
    case Limited => "LIMITED"
  }

  /** Java's Enum.valueOf: the constant with the given declared name, if any. */
  function TagOfName(s: string): (t: Option<Tag>)
    ensures t.Some? ==> TagName(t.value) == s
  {
    if s == "AVAILABLE" then Some(Available)
    else if s == "UNAVAILABLE" then Some(Unavailable)
    else if s == "LIMITED" then Some(Limited)
    else None
  }

  lemma TagOfNameOfTagName(t: Tag)
    ensures TagOfName(TagName(t)) == Some(t)
  {
  }

  /** The five tag attributes, by the names the tag map uses for them. */
  datatype TagKey = Wifi | Outlets | Desk | Restroom | Parking

  function KeyName(k: TagKey): string {
    match k
    case Wifi => "wifi"
    case Outlets => "outlets"
    case Desk => "desk"
    case Restroom => "restroom"
    case Parking => "parking"
  }

  /** A stored photo: its binary payload, None when the column is null. */
  datatype Image = Image(imageData: Option<seq<byte>>)

  /**
   * The Cafe entity. A tag attribute is None when the column is null; the
   * image list is None when the entity's collection is null, and an element
   * of it is None when that element is null. Coordinates,
   * rating and timestamp are only passed through, so they are kept as
   * mathematical values.
   */
  datatype Cafe = Cafe(
    cafeId: int,
    kakaoPlaceId: string,
    cafeName: string,
    latitude: real,
    longitude: real,
    address: string,
    phoneNumber: string,
    websiteUrl: string,
    updateAt: int,
    averageRating: real,
    openingHours: string,
    wifi: Option<Tag>,
    outlets: Option<Tag>,
    desk: Option<Tag>,
    restroom: Option<Tag>,
    parking: Option<Tag>,
    images: Option<seq<Option<Image>>>)

  /**
   * CafeDto: the detail response, and the request body of the tag update.
   * `image` is the single-image slot, which the detail response leaves null;
   * `images` holds the encoded photos.
   */
  datatype CafeDto = CafeDto(
    cafeId: int,
    kakaoPlaceId: string,
    cafeName: string,
    latitude: real,
    longitude: real,
    address: string,
    phoneNumber: string,
    websiteUrl: string,
    updateAt: int,
    averageRating: real,
    openingHours: string,
    wifi: Option<Tag>,
    outlets: Option<Tag>,
    desk: Option<Tag>,
    restroom: Option<Tag>,
    parking: Option<Tag>,
    image: Option<string>,
    images: Option<seq<string>>)

  /** CafeSearchDTO: the keyword-search shape, without tags or images. */
  datatype CafeSearchDto = CafeSearchDto(
    cafeId: int,
    cafeName: string,
    address: string,
    latitude: real,
    longitude: real)

  /** CafeHomeDTO: the map-pin shape, with the tags and at most one encoded image. */
  datatype CafeHomeDto = CafeHomeDto(
    cafeId: int,
    cafeName: string,
    latitude: real,
    longitude: real,
    address: string,
    averageRating: real,
    openingHours: string,
    wifi: Option<Tag>,
    outlets: Option<Tag>,
    desk: Option<Tag>,
    restroom: Option<Tag>,
    parking: Option<Tag>,
    imageBase64: Option<string>)

  /**
   * What a controller call can end in besides a response: a 404 status
   * exception, a 400 response, IllegalArgumentException, and the
   * NullPointerException of dereferencing a null image list, a null photo
   * or a null payload.
   */
  datatype Failure = NotFound | BadRequest | IllegalArgument | NullPointer

  /** The value of one tag attribute of a cafe. */
  function CafeTag(c: Cafe, k: TagKey): Option<Tag> {
    match k
    case Wifi => c.wifi
    case Outlets => c.outlets
    case Desk => c.desk
    case Restroom => c.restroom
    case Parking => c.parking
  }

  /** The value of one tag attribute of a request body. */
  function DtoTag(d: CafeDto, k: TagKey): Option<Tag> {
    match k
    case Wifi => d.wifi
    case Outlets => d.outlets
    case Desk => d.desk
    case Restroom => d.restroom
    case Parking => d.parking
  }
}
