/**
 * The services page: the hotel's services, and three recommended rooms
 * picked by sorting the page's room array in place by rating, best first,
 * and keeping the first three.
 */
module RoomService {
  import opened Js
  import opened Http
  import opened Catalogue
  import opened Sorting

  /** An entry of the services endpoint as this page reads it. */
  datatype Offering = Offering(id: int, name: string, description: Option<string>, icon: Option<string>, image: Option<string>)

  /** A room as this page keeps it: the image records are kept whole. */
  datatype ServiceRoom = ServiceRoom(
    id: int,
    roomNumber: string,
    roomType: Option<ApiRoomType>,
    images: seq<ApiImage>,
    price: string,
    priceValue: int,
    services: seq<Service>,
    reviews: Rating)

  const DefaultRating := Rating(4.5, 10)

  /** The page's map over the fetched rows. */
  function FormatRoom(r: ApiRoom): (room: ServiceRoom)
    ensures room.id == r.id && room.roomType == r.roomType
    ensures room.images == r.images.GetOr([])
    ensures r.roomType.None? ==> room.priceValue == 0 && room.price == "UGX 0/night" && room.services == []
    ensures r.roomType.Some? ==> room.priceValue == r.roomType.value.basePrice
                                 && room.price == "UGX " + NumberString(r.roomType.value.basePrice) + "/night"
                                 && room.services == r.roomType.value.services.GetOr([])
    ensures r.reviews.None? ==> room.reviews == DefaultRating
    ensures r.reviews.Some? ==> room.reviews == r.reviews.value
  {
    var price := if r.roomType.Some? then r.roomType.value.basePrice else 0;
    var services := if r.roomType.Some? && r.roomType.value.services.Some? then r.roomType.value.services.value else [];
    var reviews := if r.reviews.Some? then r.reviews.value else DefaultRating;
    ServiceRoom(r.id, r.roomNumber, r.roomType, if r.images.Some? then r.images.value else [],
                "UGX " + NumberString(price) + "/night", price, services, reviews)
  }

  /** The comparator `(a, b) => b.reviews.stars - a.reviews.stars` sorts ascending by this key. */
  function ByRating(): ServiceRoom -> real {
    Negated((r: ServiceRoom) => r.reviews.stars)
  }

  /** `rooms.sort(...).slice(0, 3)` on the array's contents. */
  function TopThree(rooms: seq<ServiceRoom>): seq<ServiceRoom> {
    Slice(SortBy(rooms, ByRating()), 0, 3)
  }

  lemma ByRatingIsDescending(x: ServiceRoom, y: ServiceRoom)
    ensures ByRating()(x) <= ByRating()(y) <==> x.reviews.stars >= y.reviews.stars
  {
  }

  /** In a sequence sorted best first, every room from position n on is rated at most as high as each before n. */
  lemma SortedPrefixIsBest(sorted: seq<ServiceRoom>, n: nat)
    requires SortedBy(sorted, ByRating()) && n <= |sorted|
    ensures forall i, j :: 0 <= i < j < n ==> sorted[i].reviews.stars >= sorted[j].reviews.stars
    ensures forall x, i :: x in multiset(sorted[n..]) && 0 <= i < n ==> x.reviews.stars <= sorted[i].reviews.stars
  {
    forall i, j | 0 <= i < j < n
      ensures sorted[i].reviews.stars >= sorted[j].reviews.stars
    {
      ByRatingIsDescending(sorted[i], sorted[j]);
    }
    forall x, i | x in multiset(sorted[n..]) && 0 <= i < n
      ensures x.reviews.stars <= sorted[i].reviews.stars
    {
      assert x in sorted[n..];
      var k :| 0 <= k < |sorted[n..]| && sorted[n..][k] == x;
      ByRatingIsDescending(sorted[i], sorted[n + k]);
    }
  }

  /**
   * The pick has min(3, n) rooms, best rated first, drawn from the rooms,
   * and no room left out is rated above a room picked.
   */
  lemma TopThreeIsBest(rooms: seq<ServiceRoom>)
    ensures var t := TopThree(rooms);
            && |t| == Min(3, |rooms|)
            && multiset(t) <= multiset(rooms)
            && (forall i, j :: 0 <= i < j < |t| ==> t[i].reviews.stars >= t[j].reviews.stars)
            && (forall x, i :: x in multiset(rooms) - multiset(t) && 0 <= i < |t| ==> x.reviews.stars <= t[i].reviews.stars)
  {
    var sorted := SortBy(rooms, ByRating());
    SortByPermutes(rooms, ByRating());
    SortBySorted(rooms, ByRating());
    var n := Min(3, |rooms|);
    assert TopThree(rooms) == sorted[..n];
    SplitMultiset(sorted, n);
    SortedPrefixIsBest(sorted, n);
  }

  lemma SplitMultiset<T>(s: seq<T>, n: nat)
    requires n <= |s|
    ensures multiset(s[..n]) <= multiset(s)
    ensures multiset(s) - multiset(s[..n]) == multiset(s[n..])
  {
    assert s == s[..n] + s[n..];
  }

  /** Re-rendering sorts the already sorted array again: order and pick stay the same. */
  lemma ResortIsStable(rooms: seq<ServiceRoom>)
    ensures SortBy(SortBy(rooms, ByRating()), ByRating()) == SortBy(rooms, ByRating())
    ensures TopThree(SortBy(rooms, ByRating())) == TopThree(rooms)
  {
    SortByIdempotent(rooms, ByRating());
  }

  class ServicesPage {
    var services: seq<Offering>
    var rooms: array<ServiceRoom>
    var loadingServices: bool
    var loadingRooms: bool

    constructor ()
      ensures services == [] && rooms.Length == 0 && loadingServices && loadingRooms
    {
      services := [];
      rooms := new ServiceRoom[0];
      loadingServices, loadingRooms := true, true;
    }

    /** The page renders its loading view while either fetch is unfinished. */
    predicate ShowsLoading()
      reads this
    {
      loadingServices || loadingRooms
    }

    /** The services effect: a failure leaves the list as it was; loading ends either way. */
    method LoadServices(listing: Listing<Offering>)
      modifies this
      ensures listing.Rows? ==> services == listing.rows
      ensures listing.Failed? ==> services == old(services)
      ensures !loadingServices && (ShowsLoading() <==> loadingRooms)
      ensures rooms == old(rooms) && loadingRooms == old(loadingRooms)
    {
      if listing.Rows? {
        services := listing.rows;
      }
      loadingServices := false;
    }

    /** The rooms effect: the formatted rows become a new array; loading ends either way. */
    method LoadRooms(listing: Listing<ApiRoom>)
      modifies this
      ensures listing.Rows? ==> fresh(rooms) && rooms.Length == |listing.rows|
                                && forall i :: 0 <= i < rooms.Length ==> rooms[i] == FormatRoom(listing.rows[i])
      ensures listing.Failed? ==> rooms == old(rooms)
      ensures !loadingRooms && (ShowsLoading() <==> loadingServices)
      ensures services == old(services) && loadingServices == old(loadingServices)
    {
      if listing.Rows? {
        var rows := listing.rows;
        rooms := new ServiceRoom[|rows|](i requires 0 <= i < |rows| => FormatRoom(rows[i]));
      }
      loadingRooms := false;
    }

    /** `topRooms`: sorts the page's own array in place, then takes the first three. */
    method TopRooms() returns (top: seq<ServiceRoom>)
      modifies rooms
      ensures rooms[..] == SortBy(old(rooms[..]), ByRating())
      ensures multiset(rooms[..]) == multiset(old(rooms[..]))
      ensures top == TopThree(old(rooms[..]))
    {
      SortInPlace(rooms, ByRating());
      top := Slice(rooms[..], 0, 3);
    }
  }
}
