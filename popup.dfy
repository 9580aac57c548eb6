/** The storefront endpoint (the `action` of app/routes/popup.js, lines 5-162):
    it routes a JSON request by which fields are present to the marketing-consent
    resolver, one of three read-only lookups, or the player-statistics upsert. */
module Popup {
  import opened Wrappers
  import opened Stats
  import opened Db

  /** `setUserStats: {game, score}`. */
  datatype StatsSubmission = StatsSubmission(game: string, score: int)

  /** The request body. Each boolean says whether that field was sent with a
      truthy value; `email` is None when absent. */
  datatype PopupRequest = PopupRequest(
    email: Option<string>,
    getDiscountOptions: bool,
    getGameOptions: bool,
    getUserStats: bool,
    setUserStats: Option<StatsSubmission>)

  /** JavaScript truthiness of `email`: present and not the empty string. */
  predicate HasEmail(req: PopupRequest)
  {
    req.email.Some? && req.email.value != ""
  }

  /** The five branches of the handler, in the order they are tested. */
  datatype Branch = ConsentBranch | DiscountOptionsBranch | GameOptionsBranch | GetStatsBranch | SetStatsBranch

  function Rank(b: Branch): nat
  {
    match b
    case ConsentBranch => 0
    case DiscountOptionsBranch => 1
    case GameOptionsBranch => 2
    case GetStatsBranch => 3
    case SetStatsBranch => 4
  }

  /** The guard of each branch taken on its own (lines 11, 31, 46, 57, 72). */
  predicate Guard(b: Branch, req: PopupRequest)
  {
    match b
    case ConsentBranch => HasEmail(req) && !req.getUserStats && req.setUserStats.None?
    case DiscountOptionsBranch => req.getDiscountOptions
    case GameOptionsBranch => req.getGameOptions
    case GetStatsBranch => HasEmail(req) && req.getUserStats
    case SetStatsBranch => HasEmail(req) && req.setUserStats.Some?
  }

  /** The branch a request takes: the first one, in test order, whose guard
      holds; None (the handler returns undefined) when no guard holds. */
  function Route(req: PopupRequest): (r: Option<Branch>)
    ensures r.Some? ==> Guard(r.value, req) && forall b :: Rank(b) < Rank(r.value) ==> !Guard(b, req)
    ensures r.None? ==> forall b :: !Guard(b, req)
  {
    if HasEmail(req) && !req.getUserStats && req.setUserStats.None? then Some(ConsentBranch)
    else if req.getDiscountOptions then Some(DiscountOptionsBranch)
    else if req.getGameOptions then Some(GameOptionsBranch)
    else if HasEmail(req) && req.getUserStats then Some(GetStatsBranch)
    else if HasEmail(req) && req.setUserStats.Some? then Some(SetStatsBranch)
    else None
  }

  /** A request holding only an e-mail goes to the consent resolver. */
  lemma EmailAloneResolvesConsent(email: string)
    requires email != ""
    ensures Route(PopupRequest(Some(email), false, false, false, None)) == Some(ConsentBranch)
  {
  }

  /** Precedence: a set-stats request that also carries getDiscountOptions is
      answered with the discount options and records nothing. */
  lemma DiscountOptionsWinOverSetStats(email: string, submission: StatsSubmission)
    ensures Route(PopupRequest(Some(email), true, false, false, Some(submission))) == Some(DiscountOptionsBranch)
  {
  }

  /** An empty e-mail is falsy: a stats request with `email: ""` matches no
      branch. */
  lemma EmptyEmailMatchesNothing(submission: StatsSubmission)
    ensures Route(PopupRequest(Some(""), false, false, true, Some(submission))) == None
  {
  }

  /** A customer record as the customer query returns it: its id and its
      email-marketing state ("SUBSCRIBED", "NOT_SUBSCRIBED", ...). */
  datatype Customer = Customer(id: string, marketingState: string)

  /** One call to the external customer API. */
  datatype CustomerCall = FindCustomers(email: string) | UpdateConsent(customerId: string) | CreateCustomer(email: string)

  /** The external customer API, as an oracle: `directory` gives the customers a
      query for an e-mail returns, and `calls` logs every call in order. The
      directory is the customer system as one request sees it; one request
      never looks up the same e-mail twice. */
  class CustomerApi {
    const directory: string -> seq<Customer>
    ghost var calls: seq<CustomerCall>

    constructor (directory: string -> seq<Customer>)
      ensures this.directory == directory && calls == []
    {
      this.directory := directory;
      calls := [];
    }

    /** The first customer the query for `email` returns, if any. */
    function FirstMatch(email: string): (c: Option<Customer>)
      ensures c.Some? <==> |directory(email)| > 0
      ensures c.Some? ==> c.value == directory(email)[0]
    {
      var found := directory(email);
      if |found| > 0 then Some(found[0]) else None
    }

    /** existingCustomer (lines 164-190): the first match only. */
    method ExistingCustomer(email: string) returns (c: Option<Customer>)
      modifies this
      ensures c == FirstMatch(email)
      ensures calls == old(calls) + [FindCustomers(email)]
    {
      c := FirstMatch(email);
      calls := calls + [FindCustomers(email)];
    }

    /** updateEmailMarketingConsent (lines 192-220): the request to make the
        customer SUBSCRIBED. Only the call is recorded; `directory` is fixed, so
        its effect on later lookups is not modelled. */
    method UpdateEmailMarketingConsent(customerId: string)
      modifies this
      ensures calls == old(calls) + [UpdateConsent(customerId)]
    {
      calls := calls + [UpdateConsent(customerId)];
    }

    /** createCustomer (lines 222-250): the request to create a SUBSCRIBED
        customer. Only the call is recorded; `directory` is fixed, so the new
        customer does not appear in later lookups. */
    method CreateCustomer(email: string)
      modifies this
      ensures calls == old(calls) + [CustomerCall.CreateCustomer(email)]
    {
      calls := calls + [CustomerCall.CreateCustomer(email)];
    }
  }

  /** The two marketing states that still need an opt-in. */
  predicate NeedsOptIn(state: string)
  {
    state == "NOT_SUBSCRIBED" || state == "UNSUBSCRIBED"
  }

  /** The call the consent resolver makes after the lookup, given the first
      match: an update for a found customer who still needs an opt-in, a create
      when nobody was found, and none for a found customer in any other state. */
  function ConsentFollowUp(email: string, first: Option<Customer>): (call: Option<CustomerCall>)
    ensures call.None? <==> first.Some? && !NeedsOptIn(first.value.marketingState)
    ensures first.None? ==> call == Some(CustomerCall.CreateCustomer(email))
    ensures first.Some? && call.Some? ==> call == Some(UpdateConsent(first.value.id))
  {
    match first
    case None => Some(CustomerCall.CreateCustomer(email))
    case Some(c) => if NeedsOptIn(c.marketingState) then Some(UpdateConsent(c.id)) else None
  }

  function CallsOf(call: Option<CustomerCall>): seq<CustomerCall>
  {
    if call.Some? then [call.value] else []
  }

  /** Lines 12-25: look the e-mail up and opt the customer in. The result is
      `validEmailGiven`, true exactly when an update or a create was issued. */
  method ResolveConsent(api: CustomerApi, email: string) returns (validEmailGiven: bool)
    modifies api
    ensures var follow := ConsentFollowUp(email, api.FirstMatch(email));
      && api.calls == old(api.calls) + [FindCustomers(email)] + CallsOf(follow)
      && validEmailGiven == follow.Some?
  {
    validEmailGiven := false;
    var existing := api.ExistingCustomer(email);
    if existing.Some? {
      if NeedsOptIn(existing.value.marketingState) {
        api.UpdateEmailMarketingConsent(existing.value.id);
        validEmailGiven := true;
      }
    } else {
      api.CreateCustomer(email);
      validEmailGiven := true;
    }
  }

  /** `{lowPctOff, midPctOff, highPctOff, lowProb, midProb, highProb}`. */
  datatype DiscountOptions = DiscountOptions(
    lowPctOff: real, midPctOff: real, highPctOff: real,
    lowProb: real, midProb: real, highProb: real)

  /** `{useWordGame, useBirdGame}`. */
  datatype GameOptions = GameOptions(useWordGame: bool, useBirdGame: bool)

  /** The projection `select: {lowPctOff, ..., highProb}` of a store row. */
  function DiscountOptionsOf(c: StoreConfig): DiscountOptions
  {
    DiscountOptions(c.lowPctOff, c.midPctOff, c.highPctOff, c.lowProb, c.midProb, c.highProb)
  }

  /** The projection `select: {useWordGame, useBirdGame}` of a store row. */
  function GameOptionsOf(c: StoreConfig): GameOptions
  {
    GameOptions(c.useWordGame, c.useBirdGame)
  }

  /** Lines 32-41: the shop's tiers and probabilities, null without a row. */
  method ReadDiscountOptions(db: Database, shop: string) returns (r: Option<DiscountOptions>)
    ensures r.Some? <==> shop in db.stores
    ensures r.Some? ==> r.value == DiscountOptionsOf(db.stores[shop])
  {
    if shop in db.stores {
      r := Some(DiscountOptionsOf(db.stores[shop]));
    } else {
      r := None;
    }
  }

  /** Lines 47-52: the shop's game flags, null without a row. */
  method ReadGameOptions(db: Database, shop: string) returns (r: Option<GameOptions>)
    ensures r.Some? <==> shop in db.stores
    ensures r.Some? ==> r.value == GameOptionsOf(db.stores[shop])
  {
    if shop in db.stores {
      r := Some(GameOptionsOf(db.stores[shop]));
    } else {
      r := None;
    }
  }

  /** Two discount-options lookups with no write between them give the same
      reply. */
  method DiscountOptionsReadTwice(db: Database, shop: string) returns (first: Option<DiscountOptions>, second: Option<DiscountOptions>)
    ensures first == second
  {
    first := ReadDiscountOptions(db, shop);
    second := ReadDiscountOptions(db, shop);
  }

  /** Two game-options lookups with no write between them give the same reply. */
  method GameOptionsReadTwice(db: Database, shop: string) returns (first: Option<GameOptions>, second: Option<GameOptions>)
    ensures first == second
  {
    first := ReadGameOptions(db, shop);
    second := ReadGameOptions(db, shop);
  }

  /** Lines 58-67: the player's six counters, null without a row. */
  method ReadUserStats(db: Database, email: string) returns (r: Option<PlayerStats>)
    ensures r == Lookup(db.users, email)
  {
    if email in db.users {
      r := Some(db.users[email]);
    } else {
      r := None;
    }
  }

  /** Lines 73-155: record one play. For "wordGame" or "birdGame" the e-mail's
      row is created or updated as Upsert says and the game's new counters are
      returned; for any other game nothing is read or written and the result
      is null. */
  method RecordPlay(db: Database, email: string, submission: StatsSubmission) returns (r: Option<GameStats>)
    modifies db
    ensures db.stores == old(db.stores)
    ensures ParseGame(submission.game).None? ==>
      r == None && db.users == old(db.users) && db.writes == old(db.writes)
    ensures ParseGame(submission.game).Some? ==>
      var g := ParseGame(submission.game).value;
      var row := Upsert(Lookup(old(db.users), email), g, submission.score, db.userDefaults);
      && db.users == old(db.users)[email := row]
      && r == Some(Of(row, g))
      && db.writes == old(db.writes) + [if email in old(db.users) then UserUpdated(email) else UserCreated(email)]
  {
    r := None;
    var game := ParseGame(submission.game);
    if game.Some? {
      var g := game.value;
      var score := submission.score;
      if email !in db.users {
        var created := db.CreateUser(email, g, FirstPlay(score));
        r := Some(created);
      } else {
        var userStats := Of(db.users[email], g);
        var updated := db.UpdateUser(email, g, GameStats(userStats.played + 1, userStats.total + score,
                                                         BestAfter(g, userStats.best, score)));
        r := Some(updated);
      }
    }
  }

  /** The handler's JSON replies, one per branch. */
  datatype PopupReply =
    | ConsentReply(email: string, validEmailGiven: bool)
    | DiscountOptionsReply(discountOptions: Option<DiscountOptions>)
    | GameOptionsReply(gameOptions: Option<GameOptions>)
    | UserStatsReply(userStats: Option<PlayerStats>)
    | UpdatedStatsReply(updatedUserStats: Option<GameStats>)

  /** The whole handler for a request from `shop`. None is the `undefined` it
      returns when no branch matches. Only the consent branch calls the
      customer API and only the set-stats branch writes; the store table is
      never written. */
  method HandlePopup(db: Database, api: CustomerApi, shop: string, req: PopupRequest) returns (r: Option<PopupReply>)
    modifies db, api
    ensures db.stores == old(db.stores)
    ensures Route(req) != Some(ConsentBranch) ==> api.calls == old(api.calls)
    ensures Route(req) != Some(SetStatsBranch) ==> db.users == old(db.users) && db.writes == old(db.writes)
    ensures Route(req).None? ==> r == None
    ensures Route(req) == Some(ConsentBranch) ==>
      var email := req.email.value;
      var follow := ConsentFollowUp(email, api.FirstMatch(email));
      && r == Some(ConsentReply(email, follow.Some?))
      && api.calls == old(api.calls) + [FindCustomers(email)] + CallsOf(follow)
    ensures Route(req) == Some(DiscountOptionsBranch) ==>
      r == Some(DiscountOptionsReply(if shop in db.stores then Some(DiscountOptionsOf(db.stores[shop])) else None))
    ensures Route(req) == Some(GameOptionsBranch) ==>
      r == Some(GameOptionsReply(if shop in db.stores then Some(GameOptionsOf(db.stores[shop])) else None))
    ensures Route(req) == Some(GetStatsBranch) ==>
      r == Some(UserStatsReply(Lookup(db.users, req.email.value)))
    ensures Route(req) == Some(SetStatsBranch) ==>
      var submission := req.setUserStats.value;
      var email := req.email.value;
      r.Some? && r.value.UpdatedStatsReply? &&
      match ParseGame(submission.game)
      case None => r.value.updatedUserStats == None && db.users == old(db.users) && db.writes == old(db.writes)
      case Some(g) =>
        var row := Upsert(Lookup(old(db.users), email), g, submission.score, db.userDefaults);
        && db.users == old(db.users)[email := row]
        && r.value.updatedUserStats == Some(Of(row, g))
        && db.writes == old(db.writes) + [if email in old(db.users) then UserUpdated(email) else UserCreated(email)]
  {
    r := None;
    if HasEmail(req) && !req.getUserStats && req.setUserStats.None? {
      var validEmailGiven := ResolveConsent(api, req.email.value);
      r := Some(ConsentReply(req.email.value, validEmailGiven));
    } else if req.getDiscountOptions {
      var discountOptions := ReadDiscountOptions(db, shop);
      r := Some(DiscountOptionsReply(discountOptions));
    } else if req.getGameOptions {
      var gameOptions := ReadGameOptions(db, shop);
      r := Some(GameOptionsReply(gameOptions));
    } else if HasEmail(req) && req.getUserStats {
      var userStats := ReadUserStats(db, req.email.value);
      r := Some(UserStatsReply(userStats));
    } else if HasEmail(req) && req.setUserStats.Some? {
      var updatedUserStats := RecordPlay(db, req.email.value, req.setUserStats.value);
      r := Some(UpdatedStatsReply(updatedUserStats));
    }
  }
}
