# SykeWorld hotel site — a verified model of its client logic

SykeWorld is a Next.js web site for a hotel. It has rooms, services, a bar and restaurant, a gallery, an about page, bookings and sign-in. Most of the site is rendering and `fetch` plumbing. This project models, in Dafny, the logic that becomes deterministic once network responses, the clock and the browser store are treated as inputs. That logic falls into three groups.

- **Credentials and session lifecycle**:
  - The browser's `localStorage` is a class holding a `map<string, string>`.
  - The Google id-token exchange, email sign-in, sign-up and sign-out of the sign-in page.
  - The auto-logout decision and the key-clearing callback of the session wrapper.
  - The `useAuth` hook.
  - The two one-shot flags of the home page: cookie consent and the welcome banner.
- **The booking form**:
  - The step validators and the payment validator.
  - Nights and the total price.
  - The ring-index carousel and its three-room window.
  - The submit gate and the `Authorization` header rule.
- **Catalogue transforms**:
  - The room, review and gallery formatting maps.
  - The service toggle and filter, and the price sort.
  - The top three rooms by rating, chosen by sorting the page's array in place.
  - The image carousels' modular index arithmetic.
  - The bar-and-restaurant tabs.
  - The reviews list and the about page's contact form.

Each component that keeps state (React `useState` fields, the store) is a `class` whose methods perform the component's updates in order. Each method's postcondition ties the new state to a pure function of the old state and the inputs. The properties the site relies on are lemmas about those functions. JavaScript semantics the code relies on are modelled in module `Js`:

- truthiness of optional strings and `||`;
- integer-valued numbers that turn into NaN;
- the truncating `%`;
- `String(n)`, `slice`, `filter`, `find`;
- the order of `<` on strings, as the order of Unicode scalar values (this agrees with the code-unit order inside the BMP).

`Array.prototype.sort` is modelled by its specified result, a stable ascending sort by key. Every `fetch` becomes an input value: a network failure, or a status with a body that is unparsable, the JSON `null`, or an object.

Where the informal design description and the code disagree, the model follows the code:

- **The exchange flag.** The design says a failed Google exchange leaves the `google_exchanged` flag unset. The code sets it at app/auth/page.tsx:85, before the whoami check, so a rejected whoami leaves it set (see Findings).
- **Undecodable bodies.** The design says an exchange body that does not decode is treated as empty. The code dereferences it at app/auth/page.tsx:83, which throws and ends in "Server error".
- **`isAuthenticated`.** The design describes it as reading the stored `access` token. The `useAuth` hook actually reads its own `accessToken` key (app/hooks/useAuth.ts:8).

## Model

| member | source | states |
|---|---|---|
| TokenWatcher.ScheduleAutoLogout | app/lib/tokenWatcher.ts:3-27 | An undecodable token or a missing or zero `exp` gives NoOp, in both directions. A non-positive delay gives Immediate. Otherwise exactly one deferred call is armed, with delay `exp*1000 - now` > 0. |
| TokenWatcher.NoExpiryNeverLogsOut | app/lib/tokenWatcher.ts:4-6 | Without a truthy `exp`, nothing is scheduled and `logoutFn` is never called at any time. |
| TokenWatcher.ExpiredLogsOutImmediately | app/lib/tokenWatcher.ts:8-15 | An expired token logs out once, at once, and arms no timer. |
| TokenWatcher.TimerDelay | app/lib/tokenWatcher.ts:19-22 | The timer waits the requested delay when it fits a 32-bit signed integer, 0 for a delay between 2^31 and 2^32 ms, and never more than 2^31−1 ms. |
| TokenWatcher.LiveTokenLogsOutOnceAtExpiry | app/lib/tokenWatcher.ts:8-22 | A live token whose delay fits the timer (at most 2^31−1 ms) arms one call for `exp*1000 - now` ms. Nothing runs before that time and one call runs after it. |
| TokenWatcher.LongLivedTokenLogsOutEarly | app/lib/tokenWatcher.ts:8-22 | A token living longer than 2^31−1 ms is logged out before it expires, and at once when the delay is below 2^32 ms. |
| TokenWatcher.AtMostOneLogout | app/lib/tokenWatcher.ts:3-27 | Whatever the token, `logoutFn` runs at most once per call, and the count never decreases over time. |
| SessionWrapper.ClearCredentials | app/sessionProviderWrapper.tsx:17-19 | `access`, `refresh` and `google_exchanged` are absent afterwards. Every other key keeps its value, and no key is added. |
| SessionWrapper.ClearCredentialsIdempotent | app/sessionProviderWrapper.tsx:17-21 | Clearing twice leaves the same store as clearing once. |
| SessionWrapper.ClearCredentialsKeepsOtherKeys | app/sessionProviderWrapper.tsx:17-19 | `cookie_consent`, `hasSeenWelcomeBanner` and `accessToken` survive the clear. |
| SessionWrapper.OnExpire | app/sessionProviderWrapper.tsx:14-22 | The three sequential removals leave exactly the cleared store. |
| SessionWrapper.Mount | app/sessionProviderWrapper.tsx:10-24 | The watcher is armed only when the stored `access` is truthy. Then the action is the watcher's decision for that token. |
| SessionWrapper.ExpiredTokenClearedOnMount | app/sessionProviderWrapper.tsx:11-19 | An expired stored token triggers an immediate logout, and the callback leaves no `access`. |
| UseAuth.StoredToken | app/hooks/useAuth.ts:7-10 | A token is adopted iff `accessToken` is stored and non-empty, and it is the stored value. |
| UseAuth.AuthHook.constructor | app/hooks/useAuth.ts:5 | The token starts null. |
| UseAuth.AuthHook.Mount | app/hooks/useAuth.ts:7-10 | `token` becomes the stored non-empty value, or stays as it was. From null, the hook is authenticated iff such a value is stored. |
| UseAuth.AuthHook.Login | app/hooks/useAuth.ts:12-15 | `accessToken` is stored and becomes `token`, and authentication follows whether it is non-empty. Only that key changes. |
| UseAuth.AuthHook.Logout | app/hooks/useAuth.ts:17-20 | Only `accessToken` is removed, `token` becomes null, and the hook is unauthenticated. |
| UseAuth.LoginLeavesCredentials | app/hooks/useAuth.ts:8-18 | Login and logout leave `access` and `refresh` unchanged. |
| CookieConsentBanner.ConsentBanner.constructor | app/Home/CookieConsent.tsx:6 | The banner starts hidden. |
| CookieConsentBanner.ConsentBanner.Mount | app/Home/CookieConsent.tsx:8-11 | The banner shows iff `cookie_consent` is absent or empty. |
| CookieConsentBanner.ConsentBanner.Accept | app/Home/CookieConsent.tsx:13-16 | Writes "accepted", changes no other key, and hides the banner, which then renders nothing. |
| CookieConsentBanner.ConsentBanner.Reject | app/Home/CookieConsent.tsx:18-23 | Writes "rejected", changes no other key, and hides the banner, which then renders nothing. |
| CookieConsentBanner.AnswerIsRemembered | app/Home/CookieConsent.tsx:9-19 | After either answer, no later mount shows the banner. |
| CookieConsentBanner.FirstVisitShowsBanner | app/Home/CookieConsent.tsx:9-10 | Without a stored answer, the banner shows. |
| WelcomeBannerFlag.Hero.constructor | app/Home/Hero.tsx:10 | The banner starts hidden. |
| WelcomeBannerFlag.Hero.Mount | app/Home/Hero.tsx:12-18 | The store and the banner flag become the mount effect's result. |
| WelcomeBannerFlag.Hero.DismissBanner | app/Home/Hero.tsx:20 | Hides the banner. The store is outside its frame, so it is untouched. |
| WelcomeBannerFlag.FirstMountShows | app/Home/Hero.tsx:12-18 | Without the key, the banner shows and the key is set to "true". |
| WelcomeBannerFlag.SeenMountIsQuiet | app/Home/Hero.tsx:13-14 | With the key present, nothing shows and the store is unchanged. |
| WelcomeBannerFlag.SecondMountNeverShows | app/Home/Hero.tsx:12-18 | Whatever the store, a second mount shows nothing and changes nothing. |
| AuthPage.IssueToasts | app/auth/page.tsx:134 | One error toast per validation issue, in order. |
| AuthPage.SignInIssues | app/auth/page.tsx:8-11 | The sign-in parse succeeds iff the email is valid and the password is non-empty. |
| AuthPage.SignUpIssues | app/auth/page.tsx:13-24 | Parsing succeeds iff name ≥ 2, email is valid, phone ≥ 8, password ≥ 6, confirmation non-empty, and the passwords match. A mismatch is reported last, and a short name is reported first. |
| AuthPage.StoreTokens | app/auth/page.tsx:83-84 | `access` and `refresh` take the body's values when these are truthy and otherwise keep theirs. Every other key is unchanged. |
| AuthPage.WriteTokensAndFlag | app/auth/page.tsx:83-85 | The writes after an ok exchange leave the tokens present in the body stored and the flag set to "yes". |
| AuthPage.RewriteIsIdempotent | app/auth/page.tsx:88-90 | Repeating the same writes in the token branch changes nothing more. |
| AuthPage.ExchangeGoogleToken | app/auth/page.tsx:48-124 | The ordered store writes, requests and toasts of the exchange effect equal the net outcome `GoogleExchange`. |
| AuthPage.ExchangeGuard | app/auth/page.tsx:49-56 | A request goes out iff the session is authenticated, has an id token, and the flag is not "yes". Otherwise nothing changes. |
| AuthPage.RejectedExchangeChangesNothing | app/auth/page.tsx:75-79 | A non-ok exchange leaves the store unchanged. It reports the body's `error`, or "Google exchange failed". |
| AuthPage.NullBodyIsServerError | app/auth/page.tsx:72-73 | An ok exchange whose body is unparsable or the JSON `null` ends in "Server error" with the store unchanged. This is the throw at line 83 caught at lines 118-121. |
| AuthPage.TokenModeSkipsWhoAmI | app/auth/page.tsx:83-95 | Tokens in the body are stored (only those present) and the flag is set. Whoami is never called. |
| AuthPage.FlagSetEvenWhenWhoAmIFails | app/auth/page.tsx:85-117 | In cookie mode the flag is "yes" even when whoami fails or is unreachable, and an error toast is shown. |
| AuthPage.ExchangeRunsOnce | app/auth/page.tsx:55-56 | After an ok exchange with a JSON body, any later run makes no request and changes nothing. |
| AuthPage.WhoAmIFailureBlocksRetry | app/auth/page.tsx:85-111 | Concrete run: whoami rejects, yet the next run never asks again. |
| AuthPage.EmptyBodySkipsWhoAmI | app/auth/page.tsx:72-87 | Concrete run: an ok empty body reports "Server error" and never calls whoami. |
| AuthPage.IntendedFlagOnlyOnSuccess | app/auth/page.tsx:54-117 | Corrected exchange: one toast. The flag is set iff the toast is a success. A failure leaves the store unchanged, so the exchange can run again. |
| AuthPage.IntendedEmptyBodyAsksWhoAmI | app/auth/page.tsx:86-107 | Corrected exchange: an ok body that is not an object is cookie mode. Whoami is asked, and its acceptance signs in. |
| AuthPage.IntendedAgreesOnSuccess | app/auth/page.tsx:83-107 | Wherever the page's exchange reports only success, the corrected one gives the same outcome. |
| AuthPage.HandleSignIn | app/auth/page.tsx:129-168 | The store writes, request, toasts and reload of `handleSignIn` equal the net outcome `EmailSignIn`. |
| AuthPage.EmailSignInStore | app/auth/page.tsx:148-163 | Invalid input makes no request and no write. An ok login stores only the tokens present, sets the flag and reloads. A failed login changes nothing. |
| AuthPage.SignUp | app/auth/page.tsx:173-208 | A request goes out iff the schema passes. The page reloads iff the request succeeds. |
| AuthPage.SignOut | app/auth/page.tsx:219-224 | Exactly `access`, `refresh` and `google_exchanged` are removed. |
| Booking.WithField | app/booking/page.tsx:76 | The named field takes the value and the guests count is kept. |
| Booking.ValidateDetails | app/booking/page.tsx:79-88 | Null iff all rules pass. Each message is returned iff its rule is the first to fail, in the order name, email, phone, room, check-in, check-out, date order. |
| Booking.ValidatePayment | app/booking/page.tsx:90-93 | Null iff a payment method is chosen, otherwise "Choose a payment method". |
| Booking.DateCheckIsCalendarOrder | app/booking/page.tsx:86 | On `YYYY-MM-DD` inputs the string check is calendar order, and the date-order message appears exactly when the earlier rules pass and the dates are not in order. |
| IsoDates.IsoOrderIsCalendarOrder | app/booking/page.tsx:86 | `<` on the ISO strings of two well-formed dates holds iff the first is earlier in the calendar. |
| Booking.RoundedDays | app/booking/page.tsx:100 | The result is the nearest whole number of days, within half a day of the difference. |
| Booking.Nights | app/booking/page.tsx:95-104 | 0 when either date is empty. NaN when a date does not parse. Otherwise at least 1, and the rounded day count when that is above 1. |
| Booking.WholeDaysAreNights | app/booking/page.tsx:95-104 | A stay of k whole days is `max(1, k)` nights. |
| Booking.SelectedRoom | app/booking/page.tsx:106 | None iff no room id reads as `form.room`, otherwise the first such room. |
| Booking.TotalAmount | app/booking/page.tsx:106-107 | 0 when no room matches, otherwise the first match's price times the nights. |
| Booking.Period | app/booking/page.tsx:111-112 | `max(1, n)` is at least 1 and is n for a non-empty list. |
| Booking.CarouselSteps | app/booking/page.tsx:110-112 | Both buttons keep the index in `[0, max(1,n))` and undo each other. Without rooms the index stays 0. |
| Booking.DisplayedRoomsWrap | app/booking/page.tsx:113 | The window has length `min(3, 2n - i)`, and element k is `rooms[(i+k) mod n]`. |
| Booking.AuthorizationHeader | app/booking/page.tsx:153-163 | The header is present iff the stored `access` is non-empty and not "undefined". It is then "Bearer " + the token. |
| Booking.HeaderNeverUndefined | app/booking/page.tsx:155-157 | The header is never "Bearer undefined" or "Bearer ". |
| Booking.SubmitGate | app/booking/page.tsx:118-136 | Unauthenticated: sign in first. Failing details go back to step 1, and a missing payment goes back to step 2. A request is sent iff authenticated and both validators pass. |
| Booking.AfterRequest | app/booking/page.tsx:165-199 | 401 gives the unauthorized toast. Another non-ok status gives the body's error or "Booking creation failed". A redirect happens iff the body has a truthy `pesapal_url`, and then "Booking created" is shown. |
| Booking.CoverImage | app/booking/page.tsx:65 | Never empty. It is the first image's URL when that is non-empty. |
| Booking.ToBookingRoom | app/booking/page.tsx:59-66 | The id, title, price value, "UGX …/night" price, maximum guests and cover image come from the row. |
| Booking.MapRooms | app/booking/page.tsx:58-66 | Every row is mapped, in order, iff every row has a room type; otherwise the map throws (None). |
| Booking.BookingPage.constructor | app/booking/page.tsx:20-38 | Step 1, not loading, no rooms, index 0, empty form. |
| Booking.BookingPage.Prefill | app/booking/page.tsx:40-49 | The session's name and email replace the form's where present. Nothing else changes. |
| Booking.BookingPage.LoadRooms | app/booking/page.tsx:51-74 | When the map succeeds, the rooms are the mapped rows and the index resets to 0. After a failed fetch or a throwing map, the "Could not load rooms" toast is shown and the state is kept. |
| Booking.BookingPage.Update | app/booking/page.tsx:76 | The form becomes `WithField` of the old form. Nothing else changes. |
| Booking.BookingPage.UpdateGuests | app/booking/page.tsx:233 | Only `guests` changes. |
| Booking.BookingPage.GoToStep | app/booking/page.tsx:238-279 | The plain step buttons set the step. Nothing else changes. |
| Booking.BookingPage.NextToReview | app/booking/page.tsx:257 | Moves to step 3 iff a payment method is chosen, otherwise shows the payment message. |
| Booking.BookingPage.PrevRoom | app/booking/page.tsx:110-111 | The index becomes the previous ring index and stays in range. |
| Booking.BookingPage.NextRoom | app/booking/page.tsx:112 | The index becomes the next ring index and stays in range. |
| Booking.BookingPage.HandleSubmit | app/booking/page.tsx:116-202 | No request unless the gate says send, with the step set as the gate says. A sent request carries the form and the header from the stored `access`. Loading ends false, and the toasts and redirect follow the reply. |
| ImageCarousel.StepsStayInRange | app/rooms/page.tsx:19-45 | For n > 0, `(i+1) % n` and `(i-1+n) % n` stay in `[0,n)` and undo each other. |
| ImageCarousel.EmptyCarouselIsNaN | app/rooms/page.tsx:19 | With no images, the index becomes NaN and stays NaN. |
| ImageCarousel.Carousel.constructor | app/rooms/page.tsx:15 | The index starts at 0. |
| ImageCarousel.Carousel.Tick | app/rooms/page.tsx:17-22 | The interval applies the forward step and keeps an in-range index in range. |
| ImageCarousel.Carousel.Next | app/rooms/page.tsx:44-45 | The right arrow applies the same forward step. |
| ImageCarousel.Carousel.Prev | app/rooms/page.tsx:37-38 | The left arrow applies the backward step and keeps an in-range index in range. |
| Kitchen.BannerStaysInRange | app/kitchen/page.tsx:61-100 | The banner's index stays on one of its three images under every move. |
| Kitchen.Keys | app/kitchen/page.tsx:117 | `Object.keys` lists the category names in order. |
| Kitchen.Get | app/kitchen/page.tsx:130 | For a key of the map, the items are those of a category of that name. |
| Kitchen.BarRestaurantPage.constructor | app/kitchen/page.tsx:104-105 | The tabs are the first keys, so both lookups are defined. The banner starts at image 0. |
| Kitchen.BarRestaurantPage.SelectDrinkTab | app/kitchen/page.tsx:117-120 | A drink button sets the tab to its key and keeps the lookups defined. |
| Kitchen.BarRestaurantPage.SelectMenuTab | app/kitchen/page.tsx:150-153 | A menu button sets the tab to its key and keeps the lookups defined. |
| Kitchen.BarRestaurantPage.DrinkItems | app/kitchen/page.tsx:130 | `drinks[drinkTab]` is the item list of an existing category. |
| Kitchen.BarRestaurantPage.MenuItems | app/kitchen/page.tsx:163 | `menu[menuTab]` is the item list of an existing category. |
| Gallery.ActiveImages | app/gallery/page.tsx:33-34 | The images of the first category named `activeCategory`, or [] if there is none. |
| Gallery.RowSpanPeriodic | app/gallery/page.tsx:37-70 | The row span repeats every four tiles and is one of the four spans. |
| Gallery.Render | app/gallery/page.tsx:64-82 | "No images" iff the active list is empty. Otherwise one tile per image, in order, with the `name-idx` alt text and the cyclic span. |
| Gallery.FirstCategoryIsShown | app/gallery/page.tsx:25-34 | Right after a fetch, the first category's images are shown. |
| Gallery.GalleryPage.constructor | app/gallery/page.tsx:13-14 | No categories, and the active name is "". |
| Gallery.GalleryPage.Load | app/gallery/page.tsx:18-31 | The categories are stored and the first becomes active. With none, the active name is kept. On failure nothing changes. |
| Gallery.GalleryPage.Select | app/gallery/page.tsx:50 | The button activates its category's name. |
| RoomsPage.FormatRoom | app/rooms/page.tsx:67-74 | Images become URLs (missing gives []). The price is `base_price`, or 0 without a room type, and the label is "$…/night". Services default to []. The rating is {4.5, 10}. |
| Catalogue.ImageUrls | app/rooms/page.tsx:69 | One URL per image record, in order. |
| RoomsPage.Toggled | app/rooms/page.tsx:92-96 | s is present afterwards iff it was absent before, and every other name keeps its membership. |
| RoomsPage.ToggleTwiceRestores | app/rooms/page.tsx:92-96 | Toggling an absent service twice restores the list exactly. |
| RoomsPage.Kept | app/rooms/page.tsx:100-104 | A room is kept iff it offers every selected service. An empty selection keeps all rooms. |
| RoomsPage.FilteredRoomsOrder | app/rooms/page.tsx:98-108 | The result is a permutation of the kept rooms. "low" is non-decreasing in price, "high" is non-increasing, and "none" keeps fetch order. |
| RoomsPage.FilteredRoomsMembership | app/rooms/page.tsx:100-104 | A fetched room is listed iff it offers every selected service. |
| RoomsPage.RoomsPageState.constructor | app/rooms/page.tsx:55-59 | Initial state: no rooms, loading, no sort order, no selection, no services. |
| RoomsPage.RoomsPageState.LoadRooms | app/rooms/page.tsx:62-82 | The rooms are the formatted rows, or unchanged on failure. Loading ends either way. |
| RoomsPage.RoomsPageState.LoadServices | app/rooms/page.tsx:85-90 | The services are the fetched rows, or unchanged on failure. |
| RoomsPage.RoomsPageState.ToggleService | app/rooms/page.tsx:92-96 | The selection becomes the toggled list. Nothing else changes. |
| RoomsPage.RoomsPageState.SetOrder | app/rooms/page.tsx:57 | Sets the sort order. Nothing else changes. |
| RoomsPage.RoomsPageState.Filtered | app/rooms/page.tsx:98-108 | A fresh array holding `FilteredRooms`. The page's rooms are not modified. |
| Sorting.SortByPermutes | app/roomservice/page.tsx:103 | The sort returns a permutation of its input. |
| Sorting.SortBySorted | app/roomservice/page.tsx:103 | The sort returns its input in non-decreasing key order. |
| Sorting.SortByIsStable | app/rooms/page.tsx:105-106 | The sort is stable: for every key value, the rooms with that price (or rating) keep their input order. |
| Sorting.SortByIdempotent | app/roomservice/page.tsx:102-104 | Sorting twice equals sorting once. |
| Sorting.SortInPlace | app/roomservice/page.tsx:103 | The array is reordered in place into the stable sorted order, with the same multiset. |
| RoomService.FormatRoom | app/roomservice/page.tsx:84-91 | Images default to [], the price to 0 ("UGX …/night"), services to [], and the rating to {4.5, 10}. |
| RoomService.ByRatingIsDescending | app/roomservice/page.tsx:103 | The comparator's key orders by stars, best first. |
| RoomService.SortedPrefixIsBest | app/roomservice/page.tsx:102-104 | In the sorted list, the first n are non-increasing in stars and rank at least as high as every later room. |
| RoomService.TopThreeIsBest | app/roomservice/page.tsx:102-104 | The pick has `min(3, n)` rooms, is drawn from the rooms and is non-increasing in stars. No room left out has more stars than a picked room. |
| RoomService.ResortIsStable | app/roomservice/page.tsx:102-104 | Re-sorting the already sorted array keeps its order and the same pick. |
| RoomService.ServicesPage.constructor | app/roomservice/page.tsx:52-55 | No services, an empty array, and both fetches loading. |
| RoomService.ServicesPage.LoadServices | app/roomservice/page.tsx:60-74 | The services are the rows, or unchanged on failure. The services fetch stops loading, so the page shows loading iff the rooms fetch is pending. |
| RoomService.ServicesPage.LoadRooms | app/roomservice/page.tsx:77-99 | A new array of formatted rows, or the old array on failure. The rooms fetch stops loading, so the page shows loading iff the services fetch is pending. |
| RoomService.ServicesPage.TopRooms | app/roomservice/page.tsx:102-104 | Sorts the page's own array in place (same multiset) and returns the top three of its old contents. |
| RoomsSection.FormatRoom | app/Rooms.tsx:26-44 | Both service lists equal `room_service`, or [] when it is missing. Images are URLs, or [] when missing. The price value is `base_price` and the price is "$…/night". The rating defaults to {0, 0}. |
| RoomsSection.FormatAll | app/Rooms.tsx:26-46 | Every row is formatted in order iff every row has a room type. Otherwise the map throws (None). |
| RoomsSection.ServicesAgree | app/Rooms.tsx:37-42 | The two service lists agree, and are [] without `room_service`. |
| RoomsSection.RoomsSectionState.constructor | app/Rooms.tsx:12-15 | No rooms, loading, no selection, and the modal closed. |
| RoomsSection.RoomsSectionState.Load | app/Rooms.tsx:19-55 | Loading ends false whatever happens. The rooms change only when every row formats. |
| RoomsSection.RoomsSectionState.OpenModal | app/Rooms.tsx:57-60 | Selects the room and opens the modal. |
| RoomsSection.RoomsSectionState.CloseModal | app/Rooms.tsx:94 | Closes the modal and keeps the selected room. |
| Reviews.FormatReview | app/rooms/reviews.tsx:26-32 | `user` is the username if truthy, else the email. The avatar is kept only if truthy. Id, stars and message (from `comment`) are copied. |
| Reviews.FormatAll | app/about/page.tsx:22-28 | Every row is formatted, in order. |
| Reviews.Stars | app/rooms/reviews.tsx:69-71 | A star row exists iff 0 ≤ stars ≤ 5. It then has `stars` filled glyphs, 5 glyphs in all, every one a star. |
| Reviews.Render | app/rooms/reviews.tsx:45-53 | "Loading" iff loading. "No reviews yet." iff loaded and the list is empty. Otherwise the reviews in fetch order. |
| Reviews.ReviewsColumn.constructor | app/rooms/reviews.tsx:14-15 | No reviews, loading. |
| Reviews.ReviewsColumn.Load | app/rooms/reviews.tsx:18-43 | The reviews are the formatted rows, or unchanged on failure. Loading ends either way, so the render is never "Loading". |
| Reviews.AboutPage.constructor | app/about/page.tsx:9-11 | An empty form, no reviews, loading. |
| Reviews.AboutPage.LoadReviews | app/about/page.tsx:15-39 | The reviews are the formatted rows, or unchanged on failure. Loading ends either way. |
| Reviews.AboutPage.Edit | app/about/page.tsx:180-205 | The inputs replace the form. Nothing else changes. |
| Reviews.AboutPage.Submit | app/about/page.tsx:41-65 | The form is reset only after an ok object response, with its success toast. Otherwise the form is kept: a non-ok object gives its error or "Failed to send message.", and every throw gives "Something went wrong.". |
| Http.ErrorOr | app/auth/page.tsx:149 | The body's error when truthy, otherwise the fallback. |

## Left out

- Rendering and styling: JSX, CSS classes, animations, routing, the navigation menu, the room modal's contents. These are presentation only.
- The network:
  - Every `fetch` is an input value: `Fetched`, or `Listing` for list endpoints.
  - The request URLs, headers other than `Authorization`, and the JSON bodies sent are not modelled.
  - Fields of a parsed body that the pages never read are dropped.
- The payment hand-off: the Pesapal helper, the checkout page, the availability mail route, the footer subscription and the landing page's review slice are not part of this model. They are thin wrappers around `fetch` or mail sending.
- Foreign libraries:
  - `jwtDecode` is an oracle parameter giving an optional `exp`.
  - zod's email syntax check is a predicate parameter.
  - next-auth's `signIn`/`signOut` are modelled only as the flag `openSignIn`, or as the end of a method.
  - Toasts are values. Console logging is dropped.
- Time:
  - `Date.now()` is an input, and `new Date(s).getTime()` is a parameter `parseTime`.
  - `setTimeout`/`setInterval` become returned actions or explicit `Tick` calls. The auto-logout timer waits its effective delay: the requested one wrapped to a 32-bit signed integer, negatives made 0 (`TokenWatcher.TimerDelay`).
  - The 600 ms redirect delay and the 4-second interval period are not modelled.
- React scheduling:
  - Effects are methods the caller runs once per mount; re-running an effect on a dependency change is a fresh call.
  - Batching of state updates, concurrent re-entry of the exchange effect, and cancellation of timers on unmount are not modelled.
- Booking.AfterRequest:
  - A network failure or a malformed 2xx body gives the browser's own error text. It is stood in for by "Failed to fetch" and "Unexpected end of JSON input", whose exact wording varies between engines.
  - The "Booking failed" fallback is unreachable, because thrown messages are never empty.
- Booking.BookingPage.LoadRooms: a row whose `room_type` is missing stands for the whole class of rows that make the map throw.
- Strings are sequences of Unicode scalar values, while JavaScript strings are sequences of UTF-16 code units. For characters outside the BMP the two disagree:
  - `.length` counts such a character as 2 in JavaScript and as 1 here. This affects the zod `min` rules at app/auth/page.tsx:10-19 (`AuthPage.SignInIssues`, `AuthPage.SignUpIssues`) and the `length` rules at app/booking/page.tsx:80-82 (`Booking.NameValid`, `Booking.PhoneValid`).
  - `<` puts such a character before U+E000–U+FFFF in JavaScript and after them here.
  - ISO dates are ASCII, so `IsoDates.IsoOrderIsCalendarOrder` is unaffected.
- JSON bodies other than an object or `null`, such as an array or a bare string, are not modelled (`Http.JsonBody`). At app/auth/page.tsx:83 such a body would not throw; it would set the flag and go on to the whoami call.
- Numbers:
  - Prices and room-type fields are integers, although JSON may carry fractional or string prices (`Number(...)` at app/booking/page.tsx:62). Numeric strings in `String(n)` are integer-only.
  - `formatMoney`'s `toFixed(2)` is not modelled. The booking summary renders through it.
  - `guests` is an integer, so `Number("")` and NaN inputs are not represented.
  - Review stars are integers. A fractional star count, where `repeat` truncates, is not modelled.
- Reviews.AboutPage.Submit: a success toast whose message is undefined is modelled as the empty string.
- Reviews.FormatReview: a review row whose `user` is null throws in the source. The model takes `user` as always present.
- ImageCarousel.Carousel: the index is not reset when the image list changes length under a running interval. The component's `count` is a constant for its lifetime.
- Sorting.SortInPlace: the engine's sorting algorithm is replaced by a copy of the specified stable result. Intermediate array states during the sort are not modelled.
- RoomService.ServicesPage.TopRooms: re-sorting on every render is a separate call each time (see `RoomService.ResortIsStable`).
- The type augmentation for next-auth, layout and container components, and the Tailwind configuration are not part of this model.

## Findings

| source | as written | input that shows it | evidently intended | confidence | as-written member | corrected member |
|---|---|---|---|---|---|---|
| app/auth/page.tsx:85 | `google_exchanged` is set to "yes" right after any ok exchange with a JSON body, before the whoami check. | An ok exchange whose body is `{}`, followed by whoami answering 401: an error toast is shown, but the flag is set, so the exchange is never attempted again. | The flag is set only on a successful sign-in (token mode, or cookie mode confirmed by whoami), as the success branches at lines 90 and 105 do. Failures leave it unset so that a later attempt can retry. | medium; not executed | AuthPage.WhoAmIFailureBlocksRetry | AuthPage.IntendedFlagOnlyOnSuccess |
| app/auth/page.tsx:83 | `data.access` is read before the `data &&` guard of line 87, so a 2xx body that is empty or not JSON (data null) throws. | An ok exchange with an empty body and a whoami that would accept: "Server error" is shown and whoami is never called. | A null body is cookie mode, which the guard at line 87 and the comment at line 97 anticipate: whoami is asked. | low; not executed | AuthPage.EmptyBodySkipsWhoAmI | AuthPage.IntendedEmptyBodyAsksWhoAmI |
