/**
 * The home page's rooms section: rooms formatted from the rooms endpoint,
 * a loading flag, and a modal opened on one room.
 */
module RoomsSection {
  import opened Js
  import opened Http
  import opened Catalogue

  const NoRating := Rating(0.0, 0)

  /**
   * The section's map over one row. It reads `r.room_type.id` unguarded, so a
   * row without a room type throws; that case is handled by FormatAll.
   */
  function FormatRoom(r: ApiRoom): (room: Room)
    requires r.roomType.Some?
    ensures var t := r.roomType.value;
            && room.id == r.id && room.roomNumber == r.roomNumber && room.floor == r.floor && room.status == r.status
            && room.services == t.roomService.GetOr([])
            && room.roomType == Some(t.(services := Some(room.services), roomService := None))
            && room.images == ImageUrls(r.images.GetOr([]))
            && room.priceValue == t.basePrice
            && room.price == "$" + NumberString(t.basePrice) + "/night"
            && room.reviews == r.reviews.GetOr(NoRating)
  {
    var t := r.roomType.value;
    var services := if t.roomService.Some? then t.roomService.value else [];
    var images := if r.images.Some? then ImageUrls(r.images.value) else [];
    var reviews := if r.reviews.Some? then r.reviews.value else NoRating;
    Room(r.id, r.roomNumber, r.floor, r.status,
         Some(ApiRoomType(t.id, t.name, t.description, t.basePrice, t.maxGuests, Some(services), None)),
         images, "$" + NumberString(t.basePrice) + "/night", t.basePrice, services, reviews)
  }

  /** `data.map(...)`: all rows formatted, or None when one of them throws. */
  function FormatAll(rows: seq<ApiRoom>): (rooms: Option<seq<Room>>)
    ensures rooms.Some? <==> forall i :: 0 <= i < |rows| ==> rows[i].roomType.Some?
    ensures rooms.Some? ==> |rooms.value| == |rows|
                            && forall i :: 0 <= i < |rows| ==> rooms.value[i] == FormatRoom(rows[i])
  {
    if rows == [] then Some([])
    else if rows[0].roomType.None? then None
    else
      var rest := FormatAll(rows[1..]);
      assert forall i :: 1 <= i < |rows| ==> rows[i] == rows[1..][i - 1];
      if rest.None? then None else Some([FormatRoom(rows[0])] + rest.value)
  }

  /** Both copies of the service list come from `room_service`, and agree. */
  lemma ServicesAgree(r: ApiRoom)
    requires r.roomType.Some?
    ensures FormatRoom(r).roomType.value.services == Some(FormatRoom(r).services)
    ensures r.roomType.value.roomService.None? ==> FormatRoom(r).services == []
  {
  }

  class RoomsSectionState {
    var rooms: seq<Room>
    var loading: bool
    var selectedRoom: Option<Room>
    var modalOpen: bool

    constructor ()
      ensures rooms == [] && loading && selectedRoom == None && !modalOpen
    {
      rooms, loading, selectedRoom, modalOpen := [], true, None, false;
    }

    /** The fetch effect: `loading` ends false whatever happens; rooms change only if every row formats. */
    method Load(listing: Listing<ApiRoom>)
      modifies this
      ensures !loading
      ensures listing.Rows? && FormatAll(listing.rows).Some? ==> rooms == FormatAll(listing.rows).value
      ensures listing.Failed? || FormatAll(listing.rows).None? ==> rooms == old(rooms)
      ensures selectedRoom == old(selectedRoom) && modalOpen == old(modalOpen)
    {
      if listing.Rows? {
        var formatted := FormatAll(listing.rows);
        if formatted.Some? {
          rooms := formatted.value;
        }
      }
      loading := false;
    }

    /** `openModal(room)` */
    method OpenModal(room: Room)
      modifies this
      ensures selectedRoom == Some(room) && modalOpen
      ensures rooms == old(rooms) && loading == old(loading)
    {
      selectedRoom := Some(room);
      modalOpen := true;
    }

    /** The modal's `onClose`: hides it and keeps the selected room. */
    method CloseModal()
      modifies this
      ensures !modalOpen && selectedRoom == old(selectedRoom)
      ensures rooms == old(rooms) && loading == old(loading)
    {
      modalOpen := false;
    }
  }
}
