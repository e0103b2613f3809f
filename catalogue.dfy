/**
 * Records of the hotel's catalogue: the rooms endpoint's rows and the
 * `Room` record the site's shared types declare, which the pages build
 * from those rows.
 */
module Catalogue {
  import opened Js

  datatype Service = Service(id: int, name: string, icon: Option<string>)

  /**
   * A room type as the rooms endpoint returns it. Pages read its services
   * either as `services` or as `room_service`; either may be missing.
   */
  datatype ApiRoomType = ApiRoomType(
    id: int,
    name: string,
    description: Option<string>,
    basePrice: int,
    maxGuests: int,
    services: Option<seq<Service>>,
    roomService: Option<seq<Service>>)

  datatype ApiImage = ApiImage(id: int, image: string, caption: Option<string>)

  /** A room's rating; stars are fractional (a default of 4.5 occurs). */
  datatype Rating = Rating(stars: real, count: int)

  /** A row of the rooms endpoint; `room_type`, `images` and `reviews` may be missing. */
  datatype ApiRoom = ApiRoom(
    id: int,
    roomNumber: string,
    floor: int,
    status: string,
    roomType: Option<ApiRoomType>,
    images: Option<seq<ApiImage>>,
    reviews: Option<Rating>)

  /** The shared `Room` record, with image URLs. */
  datatype Room = Room(
    id: int,
    roomNumber: string,
    floor: int,
    status: string,
    roomType: Option<ApiRoomType>,
    images: seq<string>,
    price: string,
    priceValue: int,
    services: seq<Service>,
    reviews: Rating)

  /** `images.map(img => img.image)` */
  function ImageUrls(images: seq<ApiImage>): (urls: seq<string>)
    ensures |urls| == |images|
    ensures forall i :: 0 <= i < |images| ==> urls[i] == images[i].image
  {
    seq(|images|, i requires 0 <= i < |images| => images[i].image)
  }

  /** `services.map(svc => svc.name)` */
  function ServiceNames(services: seq<Service>): (names: seq<string>)
    ensures |names| == |services|
    ensures forall i :: 0 <= i < |services| ==> names[i] == services[i].name
  {
    seq(|services|, i requires 0 <= i < |services| => services[i].name)
  }
}
