/**
 * Guest reviews as two components show them (the reviews column of the rooms
 * page and the about page), and the about page's contact form.
 */
module Reviews {
  import opened Js
  import opened Http

  datatype ApiUser = ApiUser(username: Option<string>, email: Option<string>, avatar: Option<string>)

  /** A row of the reviews endpoint. */
  datatype ApiReview = ApiReview(id: int, user: ApiUser, comment: string, stars: int)

  /** The `Review` record of the site's shared types. */
  datatype Review = Review(id: int, user: Option<string>, message: string, stars: int, avatar: Option<string>)

  /** The map both components apply to a row. */
  function FormatReview(r: ApiReview): (v: Review)
    ensures v.id == r.id && v.message == r.comment && v.stars == r.stars
    ensures Truthy(r.user.username) ==> v.user == r.user.username
    ensures !Truthy(r.user.username) ==> v.user == r.user.email
    ensures v.avatar.Some? <==> Truthy(r.user.avatar)
    ensures v.avatar.Some? ==> v.avatar == r.user.avatar
  {
    Review(r.id, Or(r.user.username, r.user.email), r.comment, r.stars,
           if Truthy(r.user.avatar) then r.user.avatar else None)
  }

  /** `data.map(...)`: every row formatted, in order. */
  function FormatAll(rows: seq<ApiReview>): (reviews: seq<Review>)
    ensures |reviews| == |rows|
    ensures forall i :: 0 <= i < |rows| ==> reviews[i] == FormatReview(rows[i])
  {
    seq(|rows|, i requires 0 <= i < |rows| => FormatReview(rows[i]))
  }

  const Star := '★'

  /** The two runs of glyphs a review's rating renders: filled, then grey. */
  datatype StarRow = StarRow(filled: string, empty: string)

  /**
   * `"★".repeat(stars)` followed by `"★".repeat(5 - stars)`. `repeat`
   * throws a RangeError on a negative count, so a rating outside 0..5 has no
   * row (None).
   */
  function Stars(stars: int): (row: Option<StarRow>)
    ensures row.Some? <==> 0 <= stars <= 5
    ensures row.Some? ==> |row.value.filled| == stars && |row.value.filled| + |row.value.empty| == 5
    ensures row.Some? ==> forall i :: 0 <= i < |row.value.filled + row.value.empty| ==> (row.value.filled + row.value.empty)[i] == Star
  {
    if 0 <= stars && 0 <= 5 - stars then Some(StarRow(Repeat(Star, stars), Repeat(Star, 5 - stars))) else None
  }

  /** What a review list renders. */
  datatype View = Loading | NoReviews | List(reviews: seq<Review>)

  function Render(loading: bool, reviews: seq<Review>): (v: View)
    ensures v == Loading <==> loading
    ensures v == NoReviews <==> !loading && reviews == []
    ensures v.List? ==> v.reviews == reviews && reviews != []
  {
    if loading then Loading else if |reviews| == 0 then NoReviews else List(reviews)
  }

  /** The reviews column of the rooms page. */
  class ReviewsColumn {
    var reviews: seq<Review>
    var loading: bool

    constructor ()
      ensures reviews == [] && loading
    {
      reviews, loading := [], true;
    }

    /** The fetch effect: `loading` ends false whatever the outcome. */
    method Load(listing: Listing<ApiReview>)
      modifies this
      ensures !loading
      ensures listing.Rows? ==> reviews == FormatAll(listing.rows)
      ensures listing.Failed? ==> reviews == old(reviews)
      ensures Render(loading, reviews) != Loading
    {
      if listing.Rows? {
        reviews := FormatAll(listing.rows);
      }
      loading := false;
    }
  }

  datatype ContactForm = ContactForm(name: string, email: string, message: string)

  const EmptyContact := ContactForm("", "", "")
  const SendFailed := "Failed to send message."
  const SomethingWrong := "Something went wrong."

  /** The about page: the reviews list and the contact form. */
  class AboutPage {
    var form: ContactForm
    var reviews: seq<Review>
    var loadingReviews: bool

    constructor ()
      ensures form == EmptyContact && reviews == [] && loadingReviews
    {
      form, reviews, loadingReviews := EmptyContact, [], true;
    }

    /** The reviews effect: `loadingReviews` ends false whatever the outcome. */
    method LoadReviews(listing: Listing<ApiReview>)
      modifies this
      ensures !loadingReviews
      ensures listing.Rows? ==> reviews == FormatAll(listing.rows)
      ensures listing.Failed? ==> reviews == old(reviews)
      ensures form == old(form)
    {
      if listing.Rows? {
        reviews := FormatAll(listing.rows);
      }
      loadingReviews := false;
    }

    /** The inputs' `setForm({ ...form, field: value })`. */
    method Edit(f: ContactForm)
      modifies this
      ensures form == f && reviews == old(reviews) && loadingReviews == old(loadingReviews)
    {
      form := f;
    }

    /**
     * `handleSubmit` with the contact endpoint's response: the form is reset
     * only after an ok response with a JSON object body. Any throw (no
     * response, a body that is not JSON, or a null body whose field is read)
     * ends in the generic toast.
     */
    method Submit(response: Fetched) returns (sent: ContactForm, toasts: seq<Toast>)
      modifies this
      ensures sent == old(form)
      ensures (response.Received? && response.response.Ok() && response.response.body.Object?) ==>
                form == EmptyContact && toasts == [Success(response.response.body.payload.success.GetOr(""))]
      ensures !(response.Received? && response.response.Ok() && response.response.body.Object?) ==> form == old(form)
      ensures response.Received? && !response.response.Ok() && response.response.body.Object? ==>
                toasts == [Failure(ErrorOr(Data(response.response.body), SendFailed))]
      ensures response.NetworkError? || response.response.body.Unparsable? || response.response.body.JsonNull? ==>
                toasts == [Failure(SomethingWrong)]
      ensures reviews == old(reviews) && loadingReviews == old(loadingReviews)
    {
      sent := form;
      if response.NetworkError? {
        return sent, [Failure(SomethingWrong)];
      }
      var res := response.response;
      match res.body
      case Unparsable =>
        toasts := [Failure(SomethingWrong)];
      case JsonNull =>
        // reading `.error` or `.success` of null throws
        toasts := [Failure(SomethingWrong)];
      case Object(data) =>
        if !res.Ok() {
          toasts := [Failure(OrElse(data.error, SendFailed))];
          return;
        }
        toasts := [Success(data.success.GetOr(""))];
        form := EmptyContact;
    }
  }
}
