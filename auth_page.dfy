/**
 * The sign-in page: the zod schemas of its two forms, the effect that
 * exchanges a Google id token for Django credentials (once per browser
 * store), email sign-in, sign-up and sign-out. Each store-changing flow is a
 * method that performs the page's `setItem`/`removeItem` calls in order and
 * is tied by its postcondition to a function giving the net outcome; the
 * properties of the flows are lemmas about those functions.
 */
module AuthPage {
  import opened Js
  import opened Http
  import opened Storage
  import opened SessionWrapper

  /** `useSession().status` */
  datatype Status = Loading | Authenticated | Unauthenticated

  /** What `useSession()` gives the page: the status and the Google id token in the session, if any. */
  datatype Session = Session(status: Status, idToken: Option<string>)

  /** The backend endpoints the page calls. */
  datatype Endpoint = GoogleLogin | WhoAmI | EmailLogin | SignUpEndpoint

  /** What a flow leaves behind: the store, the requests made in order, the toasts shown, and whether the page reloads. */
  datatype Outcome = Outcome(items: map<string, string>, calls: seq<Endpoint>, toasts: seq<Toast>, reload: bool)

  const Yes := "yes"
  const ServerError := "Server error"
  const ExchangeFailed := "Google exchange failed"
  const SignedInWithGoogle := "Signed in with Google"
  const SignedInWithCookie := "Signed in with Google (server cookie set)"
  const WhoAmIRejected := "Server did not accept Google token"
  const WhoAmIUnreachable := "Could not verify server authentication after Google login"
  const LoginFailed := "Login failed"
  const LoggedIn := "Logged in"
  const SignupFailed := "Signup failed"
  const AccountCreated := "Account created"

  // ---------------------------------------------------------------- schemas

  /** One issue of a failed zod parse, in the order zod reports them. */
  datatype Issue = TooSmall(field: string, minimum: nat) | InvalidEmail(field: string) | PasswordsMismatch

  /** zod's default message for each issue (the refinement's message is the page's). */
  function IssueMessage(issue: Issue): string {
    match issue
    case TooSmall(_, m) => "String must contain at least " + NumberString(m) + " character(s)"
    case InvalidEmail(_) => "Invalid email"
    case PasswordsMismatch => "Passwords must match"
  }

  function IssueToasts(issues: seq<Issue>): (ts: seq<Toast>)
    ensures |ts| == |issues|
    ensures forall i :: 0 <= i < |issues| ==> ts[i] == Failure(IssueMessage(issues[i]))
  {
    if issues == [] then [] else [Failure(IssueMessage(issues[0]))] + IssueToasts(issues[1..])
  }

  /** `z.string().min(minimum)` on one field. */
  function MinLength(field: string, value: string, minimum: nat): seq<Issue> {
    if |value| < minimum then [TooSmall(field, minimum)] else []
  }

  /** `z.string().email()` on one field; the address syntax check itself is the library's, given as `isEmail`. */
  function EmailCheck(field: string, value: string, isEmail: string -> bool): seq<Issue> {
    if isEmail(value) then [] else [InvalidEmail(field)]
  }

  datatype SignInData = SignInData(email: string, password: string)

  datatype SignUpData = SignUpData(name: string, email: string, phone: string, password: string, confirmPassword: string)

  /** `SignInSchema.safeParse(d)`: the issues found, none when the parse succeeds. */
  function SignInIssues(d: SignInData, isEmail: string -> bool): (issues: seq<Issue>)
    ensures issues == [] <==> isEmail(d.email) && |d.password| >= 1
  {
    EmailCheck("email", d.email, isEmail) + MinLength("password", d.password, 1)
  }

  /**
   * `SignUpSchema.safeParse(d)`. The field checks are reported first, in field
   * order; the refinement runs as well (length failures do not abort a zod
   * object), so a mismatch is always the last issue.
   */
  function SignUpIssues(d: SignUpData, isEmail: string -> bool): (issues: seq<Issue>)
    ensures issues == [] <==>
              && |d.name| >= 2 && isEmail(d.email) && |d.phone| >= 8
              && |d.password| >= 6 && |d.confirmPassword| >= 1 && d.password == d.confirmPassword
    ensures d.password != d.confirmPassword <==> |issues| > 0 && issues[|issues| - 1] == PasswordsMismatch
    ensures |d.name| < 2 ==> issues[0] == TooSmall("name", 2)
  {
    var fields := MinLength("name", d.name, 2) + EmailCheck("email", d.email, isEmail)
                  + MinLength("phone", d.phone, 8) + MinLength("password", d.password, 6)
                  + MinLength("confirmPassword", d.confirmPassword, 1);
    assert PasswordsMismatch !in fields;
    fields + (if d.password == d.confirmPassword then [] else [PasswordsMismatch])
  }

  // ------------------------------------------------------- Google exchange

  /** Writes `access` and `refresh` when the body carries them (truthy). */
  function StoreTokens(items: map<string, string>, d: Payload): (r: map<string, string>)
    ensures Lookup(r, Access) == (if Truthy(d.access) then d.access else Lookup(items, Access))
    ensures Lookup(r, Refresh) == (if Truthy(d.refresh) then d.refresh else Lookup(items, Refresh))
    ensures forall k :: k != Access && k != Refresh ==> Lookup(r, k) == Lookup(items, k)
  {
    var withAccess := if Truthy(d.access) then items[Access := d.access.value] else items;
    if Truthy(d.refresh) then withAccess[Refresh := d.refresh.value] else withAccess
  }

  /** The exchange effect starts a request only when this holds. */
  predicate ExchangeArmed(items: map<string, string>, session: Session) {
    session.status == Authenticated && Truthy(session.idToken) && Lookup(items, GoogleExchanged) != Some(Yes)
  }

  /**
   * The net outcome of the exchange effect, given the responses of the
   * exchange endpoint and of whoami (read only when the effect calls it).
   */
  function GoogleExchange(items: map<string, string>, session: Session, exchange: Fetched, whoami: Fetched): Outcome {
    if !ExchangeArmed(items, session) then Outcome(items, [], [], false)
    else match exchange
      case NetworkError => Outcome(items, [GoogleLogin], [Failure(ServerError)], false)
      case Received(res) =>
        var data := Data(res.body);
        if !res.Ok() then Outcome(items, [GoogleLogin], [Failure(ErrorOr(data, ExchangeFailed))], false)
        // reading `data.access` with data null throws into the outer catch
        else if data.None? then Outcome(items, [GoogleLogin], [Failure(ServerError)], false)
        else
          var d := data.value;
          var stored := StoreTokens(items, d)[GoogleExchanged := Yes];
          if Truthy(d.access) || Truthy(d.refresh) then
            Outcome(stored, [GoogleLogin], [Success(SignedInWithGoogle)], false)
          else match whoami
            case NetworkError => Outcome(stored, [GoogleLogin, WhoAmI], [Failure(WhoAmIUnreachable)], false)
            case Received(who) =>
              if who.Ok() then Outcome(stored, [GoogleLogin, WhoAmI], [Success(SignedInWithCookie)], false)
              else Outcome(stored, [GoogleLogin, WhoAmI], [Failure(ErrorOr(Data(who.body), WhoAmIRejected))], false)
  }

  /** The writes after an ok exchange: each token present in the body, then the flag. */
  method WriteTokensAndFlag(storage: LocalStorage, d: Payload)
    modifies storage
    ensures storage.items == StoreTokens(old(storage.items), d)[GoogleExchanged := Yes]
  {
    if Truthy(d.access) {
      storage.SetItem(Access, d.access.value);
    }
    if Truthy(d.refresh) {
      storage.SetItem(Refresh, d.refresh.value);
    }
    storage.SetItem(GoogleExchanged, Yes);
  }

  /** Repeating the writes changes nothing more. */
  lemma RewriteIsIdempotent(items: map<string, string>, d: Payload)
    ensures var once := StoreTokens(items, d)[GoogleExchanged := Yes];
            StoreTokens(once, d)[GoogleExchanged := Yes] == once
  {
  }

  /** The exchange effect, store write by store write. */
  method ExchangeGoogleToken(storage: LocalStorage, session: Session, exchange: Fetched, whoami: Fetched)
    returns (calls: seq<Endpoint>, toasts: seq<Toast>)
    modifies storage
    ensures var o := GoogleExchange(old(storage.items), session, exchange, whoami);
            storage.items == o.items && calls == o.calls && toasts == o.toasts
  {
    calls, toasts := [], [];
    if session.status != Authenticated {
      return;
    }
    if !Truthy(session.idToken) {
      return;
    }
    var alreadyExchanged := storage.GetItem(GoogleExchanged);
    if alreadyExchanged == Some(Yes) {
      return;
    }
    calls := [GoogleLogin];
    if exchange.NetworkError? {
      toasts := [Failure(ServerError)];
      return;
    }
    var res := exchange.response;
    var data := Data(res.body);
    if !res.Ok() {
      toasts := [Failure(ErrorOr(data, ExchangeFailed))];
      return;
    }
    if data.None? {
      toasts := [Failure(ServerError)];
      return;
    }
    var d := data.value;
    ghost var before := storage.items;
    WriteTokensAndFlag(storage, d);
    if Truthy(d.access) || Truthy(d.refresh) {
      // the token branch repeats the same three writes
      WriteTokensAndFlag(storage, d);
      RewriteIsIdempotent(before, d);
      toasts := [Success(SignedInWithGoogle)];
      return;
    }
    calls := calls + [WhoAmI];
    match whoami
    case NetworkError =>
      toasts := [Failure(WhoAmIUnreachable)];
    case Received(who) =>
      if who.Ok() {
        storage.SetItem(GoogleExchanged, Yes);
        toasts := [Success(SignedInWithCookie)];
      } else {
        toasts := [Failure(ErrorOr(Data(who.body), WhoAmIRejected))];
      }
  }

  /** The effect requests anything only when signed in with an id token and not yet exchanged; otherwise it changes nothing. */
  lemma ExchangeGuard(items: map<string, string>, session: Session, exchange: Fetched, whoami: Fetched)
    ensures GoogleExchange(items, session, exchange, whoami).calls != [] <==> ExchangeArmed(items, session)
    ensures !ExchangeArmed(items, session) ==>
              GoogleExchange(items, session, exchange, whoami) == Outcome(items, [], [], false)
  {
  }

  /** A non-ok exchange leaves the store as it was and reports the body's error, or the fallback. */
  lemma RejectedExchangeChangesNothing(items: map<string, string>, session: Session, res: Response, whoami: Fetched)
    requires ExchangeArmed(items, session) && !res.Ok()
    ensures var o := GoogleExchange(items, session, Received(res), whoami);
            o.items == items && o.calls == [GoogleLogin]
            && o.toasts == [Failure(if res.body.Object? && Truthy(res.body.payload.error)
                                    then res.body.payload.error.value else ExchangeFailed)]
  {
  }

  /** An ok exchange whose body is not a JSON object fails on `data.access`: "Server error", store unchanged. */
  lemma NullBodyIsServerError(items: map<string, string>, session: Session, res: Response, whoami: Fetched)
    requires ExchangeArmed(items, session) && res.Ok() && !res.body.Object?
    ensures GoogleExchange(items, session, Received(res), whoami) == Outcome(items, [GoogleLogin], [Failure(ServerError)], false)
  {
  }

  /** Tokens in the body are stored (only those present), the flag is set, and whoami is never called. */
  lemma TokenModeSkipsWhoAmI(items: map<string, string>, session: Session, res: Response, whoami: Fetched)
    requires ExchangeArmed(items, session) && res.Ok() && res.body.Object?
    requires Truthy(res.body.payload.access) || Truthy(res.body.payload.refresh)
    ensures var o := GoogleExchange(items, session, Received(res), whoami);
            && o.calls == [GoogleLogin] && WhoAmI !in o.calls
            && o.items == StoreTokens(items, res.body.payload)[GoogleExchanged := Yes]
            && o.toasts == [Success(SignedInWithGoogle)]
  {
  }

  /**
   * The flag is written before whoami runs: an ok exchange with a JSON body
   * leaves `google_exchanged` = "yes" whatever whoami answers, even when it
   * rejects the cookie session.
   */
  lemma FlagSetEvenWhenWhoAmIFails(items: map<string, string>, session: Session, res: Response, whoami: Fetched)
    requires ExchangeArmed(items, session) && res.Ok() && res.body.Object?
    requires !Truthy(res.body.payload.access) && !Truthy(res.body.payload.refresh)
    requires whoami.NetworkError? || !whoami.response.Ok()
    ensures var o := GoogleExchange(items, session, Received(res), whoami);
            && Lookup(o.items, GoogleExchanged) == Some(Yes)
            && o.calls == [GoogleLogin, WhoAmI]
            && o.items == items[GoogleExchanged := Yes]
            && |o.toasts| == 1 && o.toasts[0].Failure?
  {
  }

  /**
   * Once a run leaves the flag set, any later run of the effect, whatever the
   * session and responses, makes no request and changes nothing.
   */
  lemma ExchangeRunsOnce(items: map<string, string>, session: Session, exchange: Fetched, whoami: Fetched,
                         session': Session, exchange': Fetched, whoami': Fetched)
    requires ExchangeArmed(items, session) && exchange.Received? && exchange.response.Ok()
    requires exchange.response.body.Object?
    ensures var first := GoogleExchange(items, session, exchange, whoami);
            && Lookup(first.items, GoogleExchanged) == Some(Yes)
            && GoogleExchange(first.items, session', exchange', whoami') == Outcome(first.items, [], [], false)
  {
  }

  /**
   * A concrete run: the exchange succeeds in cookie mode, whoami rejects the
   * session, and yet the flag is set, so the next run (with a whoami that
   * would now succeed) never asks again.
   */
  lemma WhoAmIFailureBlocksRetry()
    ensures var session := Session(Authenticated, Some("id-token"));
            var ok := Received(Response(200, Object(Payload(None, None, None, None, None))));
            var first := GoogleExchange(map[], session, ok, Received(Response(401, JsonNull)));
            && first.toasts == [Failure(WhoAmIRejected)]
            && GoogleExchange(first.items, session, ok, Received(Response(200, JsonNull))).calls == []
  {
  }

  /**
   * A concrete run: an ok exchange with an empty body (cookie mode) never
   * reaches whoami and reports "Server error", although whoami would accept.
   */
  lemma EmptyBodySkipsWhoAmI()
    ensures var session := Session(Authenticated, Some("id-token"));
            var o := GoogleExchange(map[], session, Received(Response(200, Unparsable)), Received(Response(200, JsonNull)));
            o.calls == [GoogleLogin] && o.toasts == [Failure(ServerError)]
  {
  }

  /**
   * The exchange as its guard and comments intend: tokens and the flag are
   * written only on success (token mode, or cookie mode confirmed by whoami),
   * and a body that is not a JSON object counts as cookie mode.
   */
  function IntendedGoogleExchange(items: map<string, string>, session: Session, exchange: Fetched, whoami: Fetched): Outcome {
    if !ExchangeArmed(items, session) then Outcome(items, [], [], false)
    else match exchange
      case NetworkError => Outcome(items, [GoogleLogin], [Failure(ServerError)], false)
      case Received(res) =>
        var data := Data(res.body);
        if !res.Ok() then Outcome(items, [GoogleLogin], [Failure(ErrorOr(data, ExchangeFailed))], false)
        else if data.Some? && (Truthy(data.value.access) || Truthy(data.value.refresh)) then
          Outcome(StoreTokens(items, data.value)[GoogleExchanged := Yes], [GoogleLogin], [Success(SignedInWithGoogle)], false)
        else match whoami
          case NetworkError => Outcome(items, [GoogleLogin, WhoAmI], [Failure(WhoAmIUnreachable)], false)
          case Received(who) =>
            if who.Ok() then Outcome(items[GoogleExchanged := Yes], [GoogleLogin, WhoAmI], [Success(SignedInWithCookie)], false)
            else Outcome(items, [GoogleLogin, WhoAmI], [Failure(ErrorOr(Data(who.body), WhoAmIRejected))], false)
  }

  /**
   * In the intended exchange the flag ends up set exactly when the run
   * reports success, and every failure leaves the store as it was, so a
   * failed run can be retried.
   */
  lemma IntendedFlagOnlyOnSuccess(items: map<string, string>, session: Session, exchange: Fetched, whoami: Fetched)
    requires ExchangeArmed(items, session)
    ensures var o := IntendedGoogleExchange(items, session, exchange, whoami);
            && |o.toasts| == 1
            && (Lookup(o.items, GoogleExchanged) == Some(Yes) <==> o.toasts[0].Success?)
            && (o.toasts[0].Failure? ==> o.items == items && ExchangeArmed(o.items, session))
  {
  }

  /**
   * In the intended exchange an ok body that is not a JSON object is cookie
   * mode: whoami is asked, and its acceptance signs the visitor in.
   */
  lemma IntendedEmptyBodyAsksWhoAmI(items: map<string, string>, session: Session, res: Response, whoami: Fetched)
    requires ExchangeArmed(items, session) && res.Ok() && !res.body.Object?
    ensures var o := IntendedGoogleExchange(items, session, Received(res), whoami);
            && o.calls == [GoogleLogin, WhoAmI]
            && (whoami.Received? && whoami.response.Ok() ==>
                  o.toasts == [Success(SignedInWithCookie)] && o.items == items[GoogleExchanged := Yes])
  {
  }

  /** Wherever the page's exchange reports success, the intended one does the same. */
  lemma IntendedAgreesOnSuccess(items: map<string, string>, session: Session, exchange: Fetched, whoami: Fetched)
    requires ExchangeArmed(items, session)
    requires forall i :: 0 <= i < |GoogleExchange(items, session, exchange, whoami).toasts| ==>
               GoogleExchange(items, session, exchange, whoami).toasts[i].Success?
    ensures IntendedGoogleExchange(items, session, exchange, whoami) == GoogleExchange(items, session, exchange, whoami)
  {
    var o := GoogleExchange(items, session, exchange, whoami);
    assert o.toasts[0].Success?;
    var res := exchange.response;
    assert res.Ok() && res.body.Object?;
    var d := res.body.payload;
    if !Truthy(d.access) && !Truthy(d.refresh) {
      assert StoreTokens(items, d) == items;
      assert whoami.Received? && whoami.response.Ok();
    }
  }

  // ---------------------------------------------------- email sign-in / up

  /** The net outcome of `handleSignIn`. */
  function EmailSignIn(items: map<string, string>, d: SignInData, isEmail: string -> bool, login: Fetched): Outcome {
    var issues := SignInIssues(d, isEmail);
    if issues != [] then Outcome(items, [], IssueToasts(issues), false)
    else match login
      case NetworkError => Outcome(items, [EmailLogin], [Failure(ServerError)], false)
      case Received(res) =>
        var data := Data(res.body);
        if !res.Ok() then Outcome(items, [EmailLogin], [Failure(ErrorOr(data, LoginFailed))], false)
        else
          var withTokens := if data.Some? then StoreTokens(items, data.value) else items;
          Outcome(withTokens[GoogleExchanged := Yes], [EmailLogin], [Success(LoggedIn)], true)
  }

  method HandleSignIn(storage: LocalStorage, d: SignInData, isEmail: string -> bool, login: Fetched)
    returns (calls: seq<Endpoint>, toasts: seq<Toast>, reload: bool)
    modifies storage
    ensures var o := EmailSignIn(old(storage.items), d, isEmail, login);
            storage.items == o.items && calls == o.calls && toasts == o.toasts && reload == o.reload
  {
    calls, toasts, reload := [], [], false;
    var issues := SignInIssues(d, isEmail);
    if issues != [] {
      toasts := IssueToasts(issues);
      return;
    }
    calls := [EmailLogin];
    if login.NetworkError? {
      toasts := [Failure(ServerError)];
      return;
    }
    var res := login.response;
    var data := Data(res.body);
    if !res.Ok() {
      toasts := [Failure(ErrorOr(data, LoginFailed))];
      return;
    }
    if data.Some? && (Truthy(data.value.access) || Truthy(data.value.refresh)) {
      if Truthy(data.value.access) {
        storage.SetItem(Access, data.value.access.value);
      }
      if Truthy(data.value.refresh) {
        storage.SetItem(Refresh, data.value.refresh.value);
      }
    }
    storage.SetItem(GoogleExchanged, Yes);
    toasts := [Success(LoggedIn)];
    reload := true;
  }

  /** Sign-in stores only the tokens present and sets the flag on any ok response; anything else leaves the store alone. */
  lemma EmailSignInStore(items: map<string, string>, d: SignInData, isEmail: string -> bool, login: Fetched)
    ensures var o := EmailSignIn(items, d, isEmail, login);
            && (SignInIssues(d, isEmail) != [] ==> o.calls == [] && o.items == items)
            && (SignInIssues(d, isEmail) == [] && login.Received? && login.response.Ok() ==>
                  && Lookup(o.items, GoogleExchanged) == Some(Yes)
                  && Lookup(o.items, Access) == (if login.response.body.Object? && Truthy(login.response.body.payload.access)
                                                 then login.response.body.payload.access else Lookup(items, Access))
                  && o.reload)
            && (login.NetworkError? || !login.response.Ok() ==> o.items == items && !o.reload)
  {
  }

  /** The net outcome of `handleSignUp`: it never touches the store. */
  function SignUp(d: SignUpData, isEmail: string -> bool, signup: Fetched): (o: Outcome)
    ensures o.calls != [] <==> SignUpIssues(d, isEmail) == []
    ensures o.reload <==> SignUpIssues(d, isEmail) == [] && signup.Received? && signup.response.Ok()
  {
    var issues := SignUpIssues(d, isEmail);
    if issues != [] then Outcome(map[], [], IssueToasts(issues), false)
    else match signup
      case NetworkError => Outcome(map[], [SignUpEndpoint], [Failure(ServerError)], false)
      case Received(res) =>
        if !res.Ok() then Outcome(map[], [SignUpEndpoint], [Failure(ErrorOr(Data(res.body), SignupFailed))], false)
        else Outcome(map[], [SignUpEndpoint], [Success(AccountCreated)], true)
  }

  /** The sign-out button: removes the three credential keys, then signs out of next-auth. */
  method SignOut(storage: LocalStorage)
    modifies storage
    ensures storage.items == ClearCredentials(old(storage.items))
    ensures Access !in storage.items && Refresh !in storage.items && GoogleExchanged !in storage.items
  {
    storage.RemoveItem(Access);
    storage.RemoveItem(Refresh);
    storage.RemoveItem(GoogleExchanged);
  }
}
