/**
 * The booking page: a three-step form (details, payment, review), a carousel
 * over the fetched rooms, the derived nights and total, and the final submit
 * that sends the booking with the stored access token as a bearer header.
 */
module Booking {
  import opened Js
  import opened Http
  import opened Storage
  import opened Catalogue
  import opened IsoDates
  import AuthPage

  /** The form state; every field but `guests` is the text of an input. */
  datatype Form = Form(
    name: string,
    email: string,
    phone: string,
    room: string,
    checkIn: string,
    checkOut: string,
    guests: int,
    specialRequests: string,
    paymentMethod: string)

  const EmptyForm := Form("", "", "", "", "", "", 1, "", "")

  /** The text fields `update(k, v)` is called with. */
  datatype Field = Name | Email | Phone | RoomId | CheckIn | CheckOut | SpecialRequests | PaymentMethod

  /** `{ ...p, [k]: v }` */
  function WithField(f: Form, k: Field, v: string): (g: Form)
    ensures g.guests == f.guests
    ensures k == Name ==> g == f.(name := v)
    ensures k == Email ==> g == f.(email := v)
    ensures k == Phone ==> g == f.(phone := v)
    ensures k == RoomId ==> g == f.(room := v)
    ensures k == SpecialRequests ==> g == f.(specialRequests := v)
    ensures k == PaymentMethod ==> g == f.(paymentMethod := v)
    ensures k == CheckIn ==> g == f.(checkIn := v)
    ensures k == CheckOut ==> g == f.(checkOut := v)
  {
    match k
    case Name => f.(name := v)
    case Email => f.(email := v)
    case Phone => f.(phone := v)
    case RoomId => f.(room := v)
    case CheckIn => f.(checkIn := v)
    case CheckOut => f.(checkOut := v)
    case SpecialRequests => f.(specialRequests := v)
    case PaymentMethod => f.(paymentMethod := v)
  }

  /** A room as the page keeps it after loading. */
  datatype BookingRoom = BookingRoom(id: int, title: string, priceValue: int, price: string, maxGuests: int, image: string)

  // ------------------------------------------------------------ validation

  const NameMessage := "Enter a valid name"
  const EmailMessage := "Enter a valid email"
  const PhoneMessage := "Enter a valid phone"
  const RoomMessage := "Choose a room"
  const CheckInMessage := "Select check-in date"
  const CheckOutMessage := "Select check-out date"
  const DateOrderMessage := "Check-out must be after check-in"
  const PaymentMessage := "Choose a payment method"

  predicate NameValid(f: Form) { |f.name| >= 2 }
  predicate EmailValid(f: Form) { '@' in f.email }
  predicate PhoneValid(f: Form) { |f.phone| >= 8 }
  predicate RoomChosen(f: Form) { f.room != "" }
  predicate CheckInChosen(f: Form) { f.checkIn != "" }
  predicate CheckOutChosen(f: Form) { f.checkOut != "" }
  predicate DatesOrdered(f: Form) { LexLess(f.checkIn, f.checkOut) }

  /** All of step one's rules. */
  predicate DetailsValid(f: Form) {
    NameValid(f) && EmailValid(f) && PhoneValid(f) && RoomChosen(f)
    && CheckInChosen(f) && CheckOutChosen(f) && DatesOrdered(f)
  }

  /** `validateStep1`: the message of the first rule that fails, or null. */
  function ValidateDetails(f: Form): (r: Option<string>)
    ensures r == None <==> DetailsValid(f)
    ensures r == Some(NameMessage) <==> !NameValid(f)
    ensures r == Some(EmailMessage) <==> NameValid(f) && !EmailValid(f)
    ensures r == Some(PhoneMessage) <==> NameValid(f) && EmailValid(f) && !PhoneValid(f)
    ensures r == Some(RoomMessage) <==> NameValid(f) && EmailValid(f) && PhoneValid(f) && !RoomChosen(f)
    ensures r == Some(CheckInMessage) <==>
              NameValid(f) && EmailValid(f) && PhoneValid(f) && RoomChosen(f) && !CheckInChosen(f)
    ensures r == Some(CheckOutMessage) <==>
              NameValid(f) && EmailValid(f) && PhoneValid(f) && RoomChosen(f) && CheckInChosen(f) && !CheckOutChosen(f)
    ensures r == Some(DateOrderMessage) <==>
              NameValid(f) && EmailValid(f) && PhoneValid(f) && RoomChosen(f) && CheckInChosen(f) && CheckOutChosen(f)
              && !DatesOrdered(f)
  {
    if f.name == "" || |f.name| < 2 then Some(NameMessage)
    else if f.email == "" || '@' !in f.email then Some(EmailMessage)
    else if f.phone == "" || |f.phone| < 8 then Some(PhoneMessage)
    else if f.room == "" then Some(RoomMessage)
    else if f.checkIn == "" then Some(CheckInMessage)
    else if f.checkOut == "" then Some(CheckOutMessage)
    else if LexLessEq(f.checkOut, f.checkIn) then Some(DateOrderMessage)
    else None
  }

  /** `validateStep2` */
  function ValidatePayment(f: Form): (r: Option<string>)
    ensures r == None <==> f.paymentMethod != ""
    ensures r != None ==> r == Some(PaymentMessage)
  {
    if f.paymentMethod == "" then Some(PaymentMessage) else None
  }

  /** On dates picked with the date inputs, the string check of step one is the calendar order. */
  lemma DateCheckIsCalendarOrder(f: Form, checkIn: Date, checkOut: Date)
    requires WellFormed(checkIn) && WellFormed(checkOut)
    requires f.checkIn == Iso(checkIn) && f.checkOut == Iso(checkOut)
    ensures DatesOrdered(f) <==> Before(checkIn, checkOut)
    ensures ValidateDetails(f) != Some(DateOrderMessage) <==>
              !(NameValid(f) && EmailValid(f) && PhoneValid(f) && RoomChosen(f)) || Before(checkIn, checkOut)
  {
    IsoOrderIsCalendarOrder(checkIn, checkOut);
    assert CheckInChosen(f) && CheckOutChosen(f) by {
      assert |Iso(checkIn)| == 10 && |Iso(checkOut)| == 10;
    }
  }

  // ------------------------------------------------------- nights and total

  const DayMs := 86400000

  /** `Math.round(ms / DayMs)`: the nearest whole number of days, halves rounded up. */
  function RoundedDays(ms: int): (k: int)
    ensures DayMs * (2 * k - 1) <= 2 * ms < DayMs * (2 * k + 1)
  {
    (2 * ms + DayMs) / (2 * DayMs)
  }

  /**
   * The `nights` value. `parseTime` stands for `new Date(s).getTime()`:
   * the time in milliseconds, or None where the result is NaN.
   */
  function Nights(f: Form, parseTime: string -> Option<int>): (n: Num)
    ensures f.checkIn == "" || f.checkOut == "" ==> n == Int(0)
    ensures f.checkIn != "" && f.checkOut != "" && (parseTime(f.checkIn).None? || parseTime(f.checkOut).None?) ==> n == NaN
    ensures f.checkIn != "" && f.checkOut != "" && parseTime(f.checkIn).Some? && parseTime(f.checkOut).Some? ==>
              var ms := parseTime(f.checkOut).value - parseTime(f.checkIn).value;
              && n.Int? && n.i >= 1
              && (n.i > 1 ==> DayMs * (2 * n.i - 1) <= 2 * ms < DayMs * (2 * n.i + 1))
              && (2 * ms >= 3 * DayMs ==> n.i > 1)
  {
    if f.checkIn == "" || f.checkOut == "" then Int(0)
    else match (parseTime(f.checkIn), parseTime(f.checkOut))
      case (Some(t1), Some(t2)) => Int(Max(1, RoundedDays(t2 - t1)))
      case _ => NaN
  }

  /** A stay of k whole days is k nights, and a same-day or reversed range still counts one. */
  lemma WholeDaysAreNights(f: Form, parseTime: string -> Option<int>, k: int)
    requires f.checkIn != "" && f.checkOut != ""
    requires parseTime(f.checkIn).Some? && parseTime(f.checkOut).Some?
    requires parseTime(f.checkOut).value - parseTime(f.checkIn).value == k * DayMs
    ensures Nights(f, parseTime) == Int(Max(1, k))
  {
    var k' := RoundedDays(k * DayMs);
    assert k' == k;
  }

  /** `String(r.id) === String(form.room)` */
  predicate IsChosen(r: BookingRoom, f: Form) {
    NumberString(r.id) == f.room
  }

  /** `rooms.find(...)`: the first room whose id reads as the chosen one. */
  function SelectedRoom(rooms: seq<BookingRoom>, f: Form): (s: Option<BookingRoom>)
    ensures s.None? <==> forall i :: 0 <= i < |rooms| ==> !IsChosen(rooms[i], f)
    ensures s.Some? ==> exists i :: 0 <= i < |rooms| && s.value == rooms[i] && IsChosen(rooms[i], f)
                                    && forall j :: 0 <= j < i ==> !IsChosen(rooms[j], f)
  {
    var p := (r: BookingRoom) => IsChosen(r, f);
    var k := FindIndex(rooms, p);
    assert forall i :: 0 <= i < |rooms| ==> (p(rooms[i]) <==> IsChosen(rooms[i], f));
    if k == -1 then None else Some(rooms[k])
  }

  /** `totalAmount`: the chosen room's price times the nights, or 0 without a chosen room. */
  function TotalAmount(rooms: seq<BookingRoom>, f: Form, nights: Num): (t: Num)
    ensures (forall i :: 0 <= i < |rooms| ==> !IsChosen(rooms[i], f)) ==> t == Int(0)
    ensures forall i :: 0 <= i < |rooms| && IsChosen(rooms[i], f) && (forall j :: 0 <= j < i ==> !IsChosen(rooms[j], f))
              ==> t == Times(rooms[i].priceValue, nights)
  {
    var s := SelectedRoom(rooms, f);
    if s.Some? then Times(s.value.priceValue, nights) else Int(0)
  }

  // --------------------------------------------------------------- carousel

  /** `Math.max(1, rooms.length)` */
  function Period(n: nat): (p: nat)
    ensures p >= 1 && (n >= 1 ==> p == n)
  {
    Max(1, n)
  }

  /** `prevCarousel`'s update */
  function PrevIndex(i: int, n: nat): int {
    RemInt(i - 1 + Period(n), Period(n))
  }

  /** `nextCarousel`'s update */
  function NextIndex(i: int, n: nat): int {
    RemInt(i + 1, Period(n))
  }

  /** From an index in range, both buttons stay in range and undo each other; without rooms the index stays 0. */
  lemma CarouselSteps(i: int, n: nat)
    requires 0 <= i < Period(n)
    ensures 0 <= NextIndex(i, n) < Period(n) && 0 <= PrevIndex(i, n) < Period(n)
    ensures PrevIndex(NextIndex(i, n), n) == i && NextIndex(PrevIndex(i, n), n) == i
    ensures n == 0 ==> NextIndex(i, n) == 0 && PrevIndex(i, n) == 0
  {
    RingSteps(i, Period(n));
  }

  /** `rooms.concat(rooms).slice(i, i + 3)` */
  function DisplayedRooms(rooms: seq<BookingRoom>, i: nat): seq<BookingRoom> {
    Slice(rooms + rooms, i, i + 3)
  }

  /** The carousel window: up to three rooms starting at the index, wrapping round the list. */
  lemma DisplayedRoomsWrap(rooms: seq<BookingRoom>, i: nat)
    requires i < Period(|rooms|)
    ensures |DisplayedRooms(rooms, i)| == Min(3, 2 * |rooms| - i)
    ensures forall k :: 0 <= k < |DisplayedRooms(rooms, i)| ==> DisplayedRooms(rooms, i)[k] == rooms[(i + k) % |rooms|]
  {
    var n := |rooms|;
    var hi := Min(i + 3, 2 * n);
    var d := DisplayedRooms(rooms, i);
    assert d == (rooms + rooms)[i..hi];
    forall k | 0 <= k < |d|
      ensures d[k] == rooms[(i + k) % n]
    {
      assert d[k] == (rooms + rooms)[i + k];
      if i + k < n {
        ModBelow(i + k, n);
      } else {
        ModOnce(i + k, n);
      }
    }
  }

  // ----------------------------------------------------------------- submit

  const SignInFirstMessage := "Please sign in before booking"
  const UnauthorizedMessage := "Unauthorized. Your JWT is missing or expired — please sign in again."
  const CreationFailed := "Booking creation failed"
  const Created := "Booking created"
  const CompletedWithoutPayment := "Booking completed (no online payment required)"
  /** The message of the `TypeError` a failed `fetch` rejects with (the browser's own text). */
  const FetchFailedMessage := "Failed to fetch"
  /** The message of the `SyntaxError` `res.json()` rejects with (the browser's own text). */
  const InvalidJsonMessage := "Unexpected end of JSON input"

  /** `Authorization` when the stored `access` is truthy and not the string "undefined". */
  function AuthorizationHeader(access: Option<string>): (h: Option<string>)
    ensures h.Some? <==> access.Some? && access.value != "" && access.value != "undefined"
    ensures h.Some? ==> h.value == "Bearer " + access.value
  {
    var token := if Truthy(access) && access.value != "undefined" then access else None;
    if Truthy(token) then Some("Bearer " + token.value) else None
  }

  /** The request the submit sends: the form as the payload and the optional bearer header. */
  datatype BookingRequest = BookingRequest(payload: Form, authorization: Option<string>)

  /** Where the checks before the request leave the submit. */
  datatype Gate = SignInFirst | BackToStep(step: int, message: string) | Send

  function SubmitGate(status: AuthPage.Status, f: Form): (g: Gate)
    ensures g == SignInFirst <==> status != AuthPage.Authenticated
    ensures g == Send <==> status == AuthPage.Authenticated && DetailsValid(f) && f.paymentMethod != ""
    ensures g.BackToStep? ==> (g.step == 1 <==> !DetailsValid(f)) && (g.step == 1 || g.step == 2)
    ensures g == BackToStep(2, PaymentMessage) <==>
              status == AuthPage.Authenticated && DetailsValid(f) && f.paymentMethod == ""
  {
    if status != AuthPage.Authenticated then SignInFirst
    else
      var v1 := ValidateDetails(f);
      if v1.Some? then BackToStep(1, v1.value)
      else
        var v2 := ValidatePayment(f);
        if v2.Some? then BackToStep(2, v2.value) else Send
  }

  /** The toasts and the payment redirect that follow the request. */
  datatype Reply = Reply(toasts: seq<Toast>, redirect: Option<string>)

  function AfterRequest(response: Fetched): (r: Reply)
    ensures r.redirect.Some? <==> response.Received? && response.response.status != 401 && response.response.Ok()
                                  && response.response.body.Object? && Truthy(response.response.body.payload.pesapalUrl)
    ensures r.redirect.Some? ==> r.toasts == [Success(Created)]
    ensures response.Received? && response.response.status == 401 ==> r.toasts == [Failure(UnauthorizedMessage)]
    ensures response.Received? && !response.response.Ok() && response.response.status != 401 ==>
              r.toasts == [Failure(ErrorOr(Data(response.response.body), CreationFailed))]
    ensures |r.toasts| >= 1 && (r.toasts[0].Success? ==> r.toasts[0] == Success(Created))
  {
    match response
    case NetworkError => Reply([Failure(FetchFailedMessage)], None)
    case Received(res) =>
      if res.status == 401 then Reply([Failure(UnauthorizedMessage)], None)
      else if !res.Ok() then
        // `res.json().catch(() => ({}))` then `err?.error || ...`; the thrown message is never empty
        Reply([Failure(ErrorOr(Data(res.body), CreationFailed))], None)
      else match res.body
        case Unparsable => Reply([Failure(InvalidJsonMessage)], None)
        case JsonNull => Reply([Success(Created), Success(CompletedWithoutPayment)], None)
        case Object(p) =>
          if Truthy(p.pesapalUrl) then Reply([Success(Created)], Some(p.pesapalUrl.value))
          else Reply([Success(Created), Success(CompletedWithoutPayment)], None)
  }

  /** A session user's name and email; either may be missing. */
  datatype SessionUser = SessionUser(name: Option<string>, email: Option<string>)

  /** `r.images?.[0]?.image || "/placeholder.jpg"` */
  function CoverImage(images: Option<seq<ApiImage>>): (url: string)
    ensures url != ""
    ensures images.Some? && |images.value| > 0 && images.value[0].image != "" ==> url == images.value[0].image
  {
    if images.Some? && |images.value| > 0 then OrElse(Some(images.value[0].image), "/placeholder.jpg")
    else "/placeholder.jpg"
  }

  /** The page's mapping of a room row; reading `room_type.name` throws when the row has no room type. */
  function ToBookingRoom(r: ApiRoom): (b: BookingRoom)
    requires r.roomType.Some?
    ensures b.id == r.id && b.title == r.roomType.value.name && b.priceValue == r.roomType.value.basePrice
    ensures b.price == "UGX " + NumberString(r.roomType.value.basePrice) + "/night"
    ensures b.maxGuests == r.roomType.value.maxGuests && b.image == CoverImage(r.images)
  {
    var t := r.roomType.value;
    BookingRoom(r.id, t.name, t.basePrice, "UGX " + NumberString(t.basePrice) + "/night", t.maxGuests, CoverImage(r.images))
  }

  const RoomsUnavailable := "Could not load rooms"

  /** `data.map(...)` over the rows: every row mapped in order, or None when a row without a room type throws. */
  function MapRooms(rows: seq<ApiRoom>): (rooms: Option<seq<BookingRoom>>)
    ensures rooms.Some? <==> forall i :: 0 <= i < |rows| ==> rows[i].roomType.Some?
    ensures rooms.Some? ==> |rooms.value| == |rows|
                            && forall i :: 0 <= i < |rows| ==> rooms.value[i] == ToBookingRoom(rows[i])
  {
    if rows == [] then Some([])
    else if rows[0].roomType.None? then None
    else
      var rest := MapRooms(rows[1..]);
      assert forall i :: 1 <= i < |rows| ==> rows[i] == rows[1..][i - 1];
      if rest.None? then None else Some([ToBookingRoom(rows[0])] + rest.value)
  }

  class BookingPage {
    const storage: LocalStorage
    var step: int
    var loading: bool
    var rooms: seq<BookingRoom>
    var carouselIndex: int
    var form: Form

    /** The step is one of the three and the carousel index is within the room list's period. */
    ghost predicate Valid()
      reads this
    {
      1 <= step <= 3 && 0 <= carouselIndex < Period(|rooms|)
    }

    constructor (storage: LocalStorage)
      ensures this.storage == storage && Valid()
      ensures step == 1 && !loading && rooms == [] && carouselIndex == 0 && form == EmptyForm
    {
      this.storage := storage;
      step, loading, rooms, carouselIndex, form := 1, false, [], 0, EmptyForm;
    }

    /** The session effect: `name ?? p.name`, `email ?? p.email`. */
    method Prefill(user: Option<SessionUser>)
      modifies this
      ensures user.None? ==> form == old(form)
      ensures user.Some? ==> form == old(form).(name := user.value.name.GetOr(old(form).name),
                                                 email := user.value.email.GetOr(old(form).email))
      ensures step == old(step) && rooms == old(rooms) && carouselIndex == old(carouselIndex) && loading == old(loading)
    {
      if user.Some? {
        form := form.(name := user.value.name.GetOr(form.name), email := user.value.email.GetOr(form.email));
      }
    }

    /** The rooms effect: maps every row and resets the carousel, or shows a toast and keeps the state. */
    method LoadRooms(listing: Listing<ApiRoom>) returns (toasts: seq<Toast>)
      requires Valid()
      modifies this
      ensures Valid()
      ensures listing.Rows? && MapRooms(listing.rows).Some? ==>
                toasts == [] && carouselIndex == 0 && rooms == MapRooms(listing.rows).value
      ensures listing.Failed? || MapRooms(listing.rows).None? ==>
                toasts == [Failure(RoomsUnavailable)] && rooms == old(rooms) && carouselIndex == old(carouselIndex)
      ensures step == old(step) && form == old(form) && loading == old(loading)
    {
      if listing.Failed? {
        return [Failure(RoomsUnavailable)];
      }
      var mapped := MapRooms(listing.rows);
      if mapped.None? {
        return [Failure(RoomsUnavailable)];
      }
      rooms := mapped.value;
      carouselIndex := 0;
      toasts := [];
    }

    /** `update(k, v)` for the text fields. */
    method Update(k: Field, v: string)
      modifies this
      ensures form == WithField(old(form), k, v)
      ensures step == old(step) && rooms == old(rooms) && carouselIndex == old(carouselIndex) && loading == old(loading)
    {
      form := WithField(form, k, v);
    }

    /** `update("guests", Number(...))` */
    method UpdateGuests(guests: int)
      modifies this
      ensures form == old(form).(guests := guests)
      ensures step == old(step) && rooms == old(rooms) && carouselIndex == old(carouselIndex) && loading == old(loading)
    {
      form := form.(guests := guests);
    }

    /** The plain step buttons: "Next: Payment" (no validation) and the two "Back" buttons. */
    method GoToStep(s: int)
      requires Valid() && 1 <= s <= 2
      modifies this
      ensures Valid() && step == s
      ensures form == old(form) && rooms == old(rooms) && carouselIndex == old(carouselIndex) && loading == old(loading)
    {
      step := s;
    }

    /** "Next: Review": moves to step 3 only when a payment method is chosen. */
    method NextToReview() returns (toasts: seq<Toast>)
      requires Valid()
      modifies this
      ensures Valid()
      ensures form.paymentMethod != "" ==> step == 3 && toasts == []
      ensures form.paymentMethod == "" ==> step == old(step) && toasts == [Failure(PaymentMessage)]
      ensures form == old(form) && rooms == old(rooms) && carouselIndex == old(carouselIndex) && loading == old(loading)
    {
      var err := ValidatePayment(form);
      if err.Some? {
        toasts := [Failure(err.value)];
      } else {
        step := 3;
        toasts := [];
      }
    }

    method PrevRoom()
      requires Valid()
      modifies this
      ensures Valid() && carouselIndex == PrevIndex(old(carouselIndex), |rooms|)
      ensures form == old(form) && rooms == old(rooms) && step == old(step) && loading == old(loading)
    {
      CarouselSteps(carouselIndex, |rooms|);
      carouselIndex := PrevIndex(carouselIndex, |rooms|);
    }

    method NextRoom()
      requires Valid()
      modifies this
      ensures Valid() && carouselIndex == NextIndex(old(carouselIndex), |rooms|)
      ensures form == old(form) && rooms == old(rooms) && step == old(step) && loading == old(loading)
    {
      CarouselSteps(carouselIndex, |rooms|);
      carouselIndex := NextIndex(carouselIndex, |rooms|);
    }

    /**
     * `handleSubmit`: the gate decides whether a request goes out; when it
     * does, the header comes from the stored `access` and loading ends false.
     */
    method HandleSubmit(status: AuthPage.Status, response: Fetched)
      returns (request: Option<BookingRequest>, toasts: seq<Toast>, redirect: Option<string>, openSignIn: bool)
      requires Valid()
      modifies this
      ensures Valid()
      ensures var g := SubmitGate(status, old(form));
              && (g == SignInFirst ==> request == None && openSignIn && toasts == [Failure(SignInFirstMessage)]
                                       && step == old(step) && loading == old(loading) && redirect == None)
              && (g.BackToStep? ==> request == None && !openSignIn && toasts == [Failure(g.message)]
                                    && step == g.step && loading == old(loading) && redirect == None)
              && (g == Send ==> && request == Some(BookingRequest(form, AuthorizationHeader(Lookup(storage.items, Access))))
                                && !openSignIn && toasts == AfterRequest(response).toasts
                                && redirect == AfterRequest(response).redirect
                                && step == old(step) && !loading)
      ensures form == old(form) && rooms == old(rooms) && carouselIndex == old(carouselIndex)
    {
      request, toasts, redirect, openSignIn := None, [], None, false;
      if status != AuthPage.Authenticated {
        toasts := [Failure(SignInFirstMessage)];
        openSignIn := true;
        return;
      }
      var v1 := ValidateDetails(form);
      if v1.Some? {
        toasts := [Failure(v1.value)];
        step := 1;
        return;
      }
      var v2 := ValidatePayment(form);
      if v2.Some? {
        toasts := [Failure(v2.value)];
        step := 2;
        return;
      }
      loading := true;
      var raw := storage.GetItem(Access);
      var access: Option<string> := None;
      if Truthy(raw) && raw.value != "undefined" {
        access := raw;
      }
      var header: Option<string> := None;
      if Truthy(access) {
        header := Some("Bearer " + access.value);
      }
      request := Some(BookingRequest(form, header));
      var reply := AfterRequest(response);
      toasts, redirect := reply.toasts, reply.redirect;
      loading := false;
    }
  }

  /** The header is never built from an empty token or from the string "undefined". */
  lemma HeaderNeverUndefined(items: map<string, string>)
    ensures AuthorizationHeader(Lookup(items, Access)) != Some("Bearer undefined")
    ensures AuthorizationHeader(Lookup(items, Access)) != Some("Bearer ")
  {
    var a := Lookup(items, Access);
    var h := AuthorizationHeader(a);
    if h.Some? {
      assert h.value[7..] == a.value;
    }
  }
}
