/**
 * The rooms page: rooms formatted from the rooms endpoint, a set of selected
 * service names toggled by checkboxes, and the filtered list, which keeps the
 * rooms offering every selected service and optionally sorts them by price.
 */
module RoomsPage {
  import opened Js
  import opened Http
  import opened Catalogue
  import opened Sorting

  // ------------------------------------------------------------ formatting

  /** `r.room_type?.base_price ?? 0` */
  function BasePrice(r: ApiRoom): int {
    if r.roomType.Some? then r.roomType.value.basePrice else 0
  }

  /** The page's map over the fetched rows: `...r` plus the derived fields. */
  function FormatRoom(r: ApiRoom): (room: Room)
    ensures room.id == r.id && room.roomNumber == r.roomNumber && room.roomType == r.roomType
    ensures r.images.None? ==> room.images == []
    ensures r.images.Some? ==> |room.images| == |r.images.value|
                               && forall i :: 0 <= i < |room.images| ==> room.images[i] == r.images.value[i].image
    ensures r.roomType.None? ==> room.priceValue == 0 && room.price == "$0/night" && room.services == []
    ensures r.roomType.Some? ==> room.priceValue == r.roomType.value.basePrice
                                 && room.price == "$" + NumberString(r.roomType.value.basePrice) + "/night"
                                 && room.services == r.roomType.value.services.GetOr([])
    ensures room.reviews == Rating(4.5, 10)
  {
    var images := ImageUrls(if r.images.Some? then r.images.value else []);
    var services := if r.roomType.Some? && r.roomType.value.services.Some? then r.roomType.value.services.value else [];
    Room(r.id, r.roomNumber, r.floor, r.status, r.roomType, images,
         "$" + NumberString(BasePrice(r)) + "/night", BasePrice(r), services, Rating(4.5, 10))
  }

  // ------------------------------------------------------------------ toggle

  /** `prev.includes(s) ? prev.filter(x => x !== s) : [...prev, s]` */
  function Toggled(prev: seq<string>, s: string): (next: seq<string>)
    ensures s in next <==> s !in prev
    ensures forall x :: x != s ==> (x in next <==> x in prev)
  {
    if s in prev then Filter(prev, x => x != s) else prev + [s]
  }

  /** Checking and unchecking a service that was not selected restores the selection exactly. */
  lemma ToggleTwiceRestores(prev: seq<string>, s: string)
    requires s !in prev
    ensures Toggled(Toggled(prev, s), s) == prev
  {
    var p := (x: string) => x != s;
    assert Toggled(prev, s) == prev + [s];
    FilterAppendOne(prev, s, p);
    FilterKeepsAll(prev, p);
  }

  // ------------------------------------------------------ filter and sort

  datatype SortOrder = NoSort | Low | High

  /** `selectedServices.every(s => room.services.map(svc => svc.name).includes(s))` */
  predicate Offers(room: Room, selected: seq<string>) {
    forall s :: s in selected ==> s in ServiceNames(room.services)
  }

  /** The rooms the filter keeps; without a selection, all of them. */
  function Kept(rooms: seq<Room>, selected: seq<string>): (kept: seq<Room>)
    ensures forall i :: 0 <= i < |rooms| ==> (rooms[i] in kept <==> Offers(rooms[i], selected))
    ensures forall i :: 0 <= i < |kept| ==> kept[i] in rooms
    ensures selected == [] ==> kept == rooms
  {
    if |selected| > 0 then Filter(rooms, room => Offers(room, selected)) else rooms
  }

  /** `(a, b) => a.priceValue - b.priceValue` as a sort key. */
  function PriceKey(room: Room): real {
    room.priceValue as real
  }

  /** `filteredRooms`: the kept rooms, sorted by price when a sort order is chosen. */
  function FilteredRooms(rooms: seq<Room>, selected: seq<string>, order: SortOrder): seq<Room> {
    var kept := Kept(rooms, selected);
    match order
    case NoSort => kept
    case Low => SortBy(kept, PriceKey)
    case High => SortBy(kept, Negated(PriceKey))
  }

  /** The filtered list is a permutation of the kept rooms, in price order for "low" and "high" and in fetch order for "none". */
  lemma FilteredRoomsOrder(rooms: seq<Room>, selected: seq<string>, order: SortOrder)
    ensures var r := FilteredRooms(rooms, selected, order);
            && multiset(r) == multiset(Kept(rooms, selected))
            && (order == NoSort ==> r == Kept(rooms, selected))
            && (order == Low ==> forall i, j :: 0 <= i < j < |r| ==> r[i].priceValue <= r[j].priceValue)
            && (order == High ==> forall i, j :: 0 <= i < j < |r| ==> r[i].priceValue >= r[j].priceValue)
  {
    var kept := Kept(rooms, selected);
    var r := FilteredRooms(rooms, selected, order);
    match order
    case NoSort =>
    case Low =>
      SortByPermutes(kept, PriceKey);
      SortBySorted(kept, PriceKey);
      forall i, j | 0 <= i < j < |r|
        ensures r[i].priceValue <= r[j].priceValue
      {
        assert PriceKey(r[i]) <= PriceKey(r[j]);
      }
    case High =>
      SortByPermutes(kept, Negated(PriceKey));
      SortBySorted(kept, Negated(PriceKey));
      forall i, j | 0 <= i < j < |r|
        ensures r[i].priceValue >= r[j].priceValue
      {
        assert Negated(PriceKey)(r[i]) <= Negated(PriceKey)(r[j]);
        assert Negated(PriceKey)(r[i]) == -(r[i].priceValue as real);
        assert Negated(PriceKey)(r[j]) == -(r[j].priceValue as real);
      }
  }

  /** A room is in the filtered list exactly when it offers every selected service. */
  lemma FilteredRoomsMembership(rooms: seq<Room>, selected: seq<string>, order: SortOrder, room: Room)
    requires room in rooms
    ensures room in FilteredRooms(rooms, selected, order) <==> Offers(room, selected)
  {
    FilteredRoomsOrder(rooms, selected, order);
    var kept := Kept(rooms, selected);
    var i :| 0 <= i < |rooms| && rooms[i] == room;
    assert room in FilteredRooms(rooms, selected, order) <==> room in multiset(FilteredRooms(rooms, selected, order));
    assert room in kept <==> room in multiset(kept);
  }

  // -------------------------------------------------------------------- page

  class RoomsPageState {
    var rooms: seq<Room>
    var loading: bool
    var order: SortOrder
    var selected: seq<string>
    var allServices: seq<Service>

    constructor ()
      ensures rooms == [] && loading && order == NoSort && selected == [] && allServices == []
    {
      rooms, loading, order, selected, allServices := [], true, NoSort, [], [];
    }

    /** The rooms effect: formats every row, and ends loading whatever the outcome. */
    method LoadRooms(listing: Listing<ApiRoom>)
      modifies this
      ensures !loading
      ensures listing.Rows? ==> |rooms| == |listing.rows| && forall i :: 0 <= i < |rooms| ==> rooms[i] == FormatRoom(listing.rows[i])
      ensures listing.Failed? ==> rooms == old(rooms)
      ensures order == old(order) && selected == old(selected) && allServices == old(allServices)
    {
      if listing.Rows? {
        var formatted: seq<Room> := [];
        var i := 0;
        while i < |listing.rows|
          invariant 0 <= i <= |listing.rows|
          invariant |formatted| == i && forall j :: 0 <= j < i ==> formatted[j] == FormatRoom(listing.rows[j])
        {
          formatted := formatted + [FormatRoom(listing.rows[i])];
          i := i + 1;
        }
        rooms := formatted;
      }
      loading := false;
    }

    /** The services effect: a failure leaves the list empty as it was. */
    method LoadServices(listing: Listing<Service>)
      modifies this
      ensures listing.Rows? ==> allServices == listing.rows
      ensures listing.Failed? ==> allServices == old(allServices)
      ensures rooms == old(rooms) && loading == old(loading) && order == old(order) && selected == old(selected)
    {
      if listing.Rows? {
        allServices := listing.rows;
      }
    }

    method ToggleService(s: string)
      modifies this
      ensures selected == Toggled(old(selected), s)
      ensures rooms == old(rooms) && loading == old(loading) && order == old(order) && allServices == old(allServices)
    {
      selected := Toggled(selected, s);
    }

    method SetOrder(o: SortOrder)
      modifies this
      ensures order == o
      ensures rooms == old(rooms) && loading == old(loading) && selected == old(selected) && allServices == old(allServices)
    {
      order := o;
    }

    /**
     * The memoised list: copies `rooms` into a new array, filters it and
     * sorts that copy in place; the page's own rooms are not touched.
     */
    method Filtered() returns (r: array<Room>)
      ensures fresh(r)
      ensures r[..] == FilteredRooms(rooms, selected, order)
    {
      var kept := Kept(rooms, selected);
      r := new Room[|kept|](i requires 0 <= i < |kept| => kept[i]);
      assert r[..] == kept;
      match order
      case NoSort =>
      case Low => SortInPlace(r, PriceKey);
      case High => SortInPlace(r, Negated(PriceKey));
    }
  }
}
