# PopGames core in Dafny

A model of the two request handlers of the PopGames Shopify app that hold its
logic:

- **Tier-configuration save** (`Settings`): a merchant submits three discount
  percentages, three tier probabilities and two game flags. The handler loads
  the shop's configuration row. It applies the flags, then checks that the
  probabilities sum to one and that the percentages rise strictly from low to
  mid to high. It pushes every changed percentage to the external
  discount-coupon service. It writes the row back only when all of this
  succeeded, and replies `{success, message}`.
- **Storefront endpoint** (`Popup`, with the statistics arithmetic in `Stats`):
  it routes a JSON request by which fields are present. An e-mail alone goes to
  the marketing-consent resolver. Three flags select read-only lookups of the
  discount options, the game options or a player's statistics. A `setUserStats`
  submission creates or updates the player's row: played +1, total +score, and
  best = min for the word game, max for the bird game.

The persistent store (`Db.Database`) is a class with one map per table. Each
write goes through a method that also appends to a ghost `writes` log. The two
external services are classes whose answers are fixed inputs (oracles) and
whose calls are appended to a ghost `calls` log:

- `Settings.DiscountApi`: its `answer` says whether a new percentage is
  accepted for a discount id.
- `Popup.CustomerApi`: its `directory` gives the customers that the customer
  query returns for an e-mail.

Each request is one atomic step on these objects.

Modelling choices:
- Percentages and probabilities are `real`. A field that `parseFloat` turns
  into NaN (missing or not a number) is `None`. `None` fails both the sum check
  and the order check, as every comparison with NaN does.
- A game flag is the raw field string, `None` when the field is absent.
- The loaded row is a value that the save updates field by field, mirroring the
  in-place edits of the fetched record.
- The user row is keyed by e-mail alone and is shared by both games. A row
  first created by one game is *updated*, not created, by the other game's
  first play. The other game's counters then start from the schema defaults,
  which are not known and are a parameter of the model (`userDefaults`).
  `Stats.SharedRow` and `Stats.SharedRowKeepsDefaultWordBest` spell out what
  this means.

Two consequences of the code's control flow:
- A rejected form persists nothing. The only write is at
  app/routes/app._index.jsx:143. It is reached only when both checks pass and
  every discount call succeeded, so flags and probabilities applied to the
  loaded row are discarded on any failure.
- Both checks always run. The tier-order message overwrites the probability
  message when both fail.

## Model

| member | source | states |
|---|---|---|
| `Settings.SaveSettings` | app/routes/app._index.jsx:77-155 | No row for the shop: null reply, no discount call, no write. Otherwise the reply is the decision table `Outcome`. The discount calls are `IssuedSyncs`: none unless both checks pass. Exactly on success there is one write, of `Merge(row, form)`, and the persisted row keeps the tier order and the probability sum. |
| `Settings.ProbabilitiesSumToOne` | app/routes/app._index.jsx:108 | The probability check: all three probabilities are numbers and they sum to one. A NaN field fails it. |
| `Settings.TiersAscending` | app/routes/app._index.jsx:123 | The order check: all three percentages are numbers and low < mid < high. A NaN field fails it. |
| `Settings.Outcome` | app/routes/app._index.jsx:97-149 | The reply as a decision table. A failed order check gives the tier-order message. Otherwise a failed probability check gives the probability message. Otherwise a refused discount call gives "Update failed". Otherwise the reply is success with "Updated successfully". |
| `Settings.IssuedSyncs` | app/routes/app._index.jsx:123-138 | The discount calls a save makes: `PendingSyncs` when both checks pass, none otherwise. |
| `Settings.Merge` | app/routes/app._index.jsx:100-143 | The row a save writes. A flag becomes `value == "true"` when its field is present and keeps its stored value otherwise. Probabilities and percentages are the submitted ones. Discount ids and account data are unchanged. The row satisfies `low < mid < high` and the probability sum is one. |
| `Settings.ApplyFlags` | app/routes/app._index.jsx:100-106 | Each flag whose field is present becomes whether the field is "true". The others are unchanged. |
| `Settings.ApplyProbabilities` | app/routes/app._index.jsx:108-117 | Copying each differing submitted probability leaves the row with exactly the submitted probabilities. |
| `Settings.PendingSyncs` | app/routes/app._index.jsx:125-138 | One call for each tier whose submitted percentage differs from the stored one, and no other calls. Each call carries that tier's stored discount id and its new percentage. Calls go in low, mid, high order, without repeats. |
| `Settings.SyncTier` | app/routes/app._index.jsx:125-137 | Exactly one discount call when the tier's percentage changed, none otherwise. The new `success` is the old one and the answer of that call. |
| `Settings.PushChangedTiers` | app/routes/app._index.jsx:124-138 | Issues exactly `PendingSyncs`, even after an earlier refusal. `success` is the conjunction of the service's answers. The loaded row ends up with the submitted percentages. |
| `Settings.DiscountApi.UpdateDiscountPercentage` | app/routes/app._index.jsx:126-136 | The reply is the service's answer for (discount id, percentage), and the call is appended to the log. |
| `Settings.RejectedForm` | app/routes/app._index.jsx:108-149 | A form failing either check gives `success: false` and no discount call. The message is the tier-order message whenever the order check fails, and the probability message otherwise. |
| `Settings.AcceptedForm` | app/routes/app._index.jsx:123-144 | A form passing both checks issues exactly the pending calls. It succeeds exactly when all of them are accepted; otherwise the message is "Update failed". |
| `Settings.UnchangedTiersIssueNoCalls` | app/routes/app._index.jsx:125-137 | Resubmitting the stored percentages issues no discount call. |
| `Db.Database.UpdateStore` | app/routes/app._index.jsx:143 | The shop's row becomes the given row, and one store write is logged. |
| `Db.Database.CreateUser` | app/routes/popup.js:87-99 | A new row with the game's counters set and the other game's at the schema defaults, and one create is logged. |
| `Db.Database.UpdateUser` | app/routes/popup.js:101-112 | Only the named game's counters of that e-mail's row change, and one update is logged. |
| `Popup.HasEmail` | app/routes/popup.js:11-72 | JavaScript truthiness of `email`: present and not the empty string. |
| `Popup.Guard` | app/routes/popup.js:11-72 | Each branch's own guard, as written at lines 11, 31, 46, 57 and 72. |
| `Popup.Route` | app/routes/popup.js:11-72 | The branch taken is the first one, in the order consent, discount options, game options, get stats, set stats, whose guard holds. No branch (undefined reply) exactly when no guard holds. |
| `Popup.EmailAloneResolvesConsent` | app/routes/popup.js:11 | A request with only a non-empty e-mail goes to the consent resolver. |
| `Popup.DiscountOptionsWinOverSetStats` | app/routes/popup.js:11-72 | A set-stats request that also carries `getDiscountOptions` is answered with the discount options. |
| `Popup.EmptyEmailMatchesNothing` | app/routes/popup.js:57-72 | An empty e-mail is falsy, so a stats request carrying one matches no branch. |
| `Popup.CustomerApi.FirstMatch` | app/routes/popup.js:187-189 | The first customer the query returns, none when it returns no one. |
| `Popup.CustomerApi.ExistingCustomer` | app/routes/popup.js:164-190 | Returns the first match and logs one lookup. |
| `Popup.CustomerApi.UpdateEmailMarketingConsent` | app/routes/popup.js:192-220 | Logs one consent update for the customer id. |
| `Popup.CustomerApi.CreateCustomer` | app/routes/popup.js:222-250 | Logs one customer creation for the e-mail. |
| `Popup.NeedsOptIn` | app/routes/popup.js:17-18 | A found customer still needs an opt-in exactly when its state is NOT_SUBSCRIBED or UNSUBSCRIBED. |
| `Popup.ConsentFollowUp` | app/routes/popup.js:15-25 | After the lookup: no call exactly when a customer was found in a state other than NOT_SUBSCRIBED or UNSUBSCRIBED. A consent update of that customer when one was found in one of those two states. A create when nobody was found. |
| `Popup.ResolveConsent` | app/routes/popup.js:11-30 | Exactly one lookup, followed by the `ConsentFollowUp` call if there is one. `validEmailGiven` is true exactly when that call was made. |
| `Popup.ReadDiscountOptions` | app/routes/popup.js:31-45 | The shop's three percentages and three probabilities, null exactly when the shop has no row. It changes nothing. |
| `Popup.ReadGameOptions` | app/routes/popup.js:46-56 | The shop's two game flags, null exactly when the shop has no row. It changes nothing. |
| `Popup.ReadUserStats` | app/routes/popup.js:57-71 | The e-mail's six counters, null without a row. It changes nothing. |
| `Popup.DiscountOptionsReadTwice` | app/routes/popup.js:31-45 | Two discount-options lookups in a row give the same reply. |
| `Popup.GameOptionsReadTwice` | app/routes/popup.js:46-56 | Two game-options lookups in a row give the same reply. |
| `Popup.RecordPlay` | app/routes/popup.js:72-160 | For "wordGame" or "birdGame": the e-mail's row becomes `Upsert` of the old row (create if absent, update otherwise), the reply is the game's new counters, and exactly one create or update is logged. Any other game: null reply, no write. The store table is untouched. |
| `Popup.HandlePopup` | app/routes/popup.js:5-162 | Dispatches as `Route` says. Only the consent branch calls the customer API. Only the set-stats branch writes, and it logs exactly one create or update for a known game. The read branches return the projections of the current rows. When no branch matches, the reply is undefined. |
| `Stats.ParseGame` | app/routes/popup.js:77-116 | Word game exactly for "wordGame", bird game exactly for "birdGame", none otherwise. |
| `Stats.With` | app/routes/popup.js:101-111 | Replacing one game's counters leaves the other game's counters unchanged. |
| `Stats.BestAfter` | app/routes/popup.js:105-144 | The new best is either the old best or the score. For the word game it is at most both; for the bird game it is at least both. |
| `Stats.FirstPlay` | app/routes/popup.js:90-92 | A new row's counters for the game: played 1, total = score, best = score. |
| `Stats.AddPlay` | app/routes/popup.js:103-105 | An existing row's counters after a play: played +1, total +score, best from `BestAfter`. Lines 142-144 are the same for the bird game. |
| `Stats.Upsert` | app/routes/popup.js:86-154 | The other game's counters keep their old (or, for a new row, default) values. A new row has played 1, total = score and best = score. An existing row has played +1, total +score, and best at least as good as the old best and the score and equal to one of them. |
| `Stats.ReplayFromNoRow` | app/routes/popup.js:86-151 | From no row, n plays of one game leave played = n, total = the sum of the scores, and best = the best score (the minimum for the word game, the maximum for the bird game). The other game stays at the defaults. |
| `Stats.ReplayOnRow` | app/routes/popup.js:100-151 | From an existing row, n plays grow played by exactly n and total by the sum of the scores. Best is at least as good as the old best and every score, and equal to one of them. The other game's counters are untouched. |
| `Stats.WordGameExample` | app/routes/popup.js:86-112 | Word game, scores 50 then 30 from no row: (2, 80, 30). |
| `Stats.BirdGameExample` | app/routes/popup.js:125-151 | Bird game, scores 3 then 5 from no row: (2, 8, 5). |
| `Stats.SharedRow` | app/routes/popup.js:78-151 | After a bird-game play has created the row, a first word-game play advances the schema defaults instead of starting at (1, score, score). |
| `Stats.SharedRowKeepsDefaultWordBest` | app/routes/popup.js:101-105 | In that case, when the default word best is below the score, the stored word best stays at the default. |

## Left out

- The React UI, toasts and display formatting of app/routes/app._index.jsx
  (lines 157-536): rendering and client state only.
- `loader` (app/routes/app._index.jsx:35-75): authentication, the billing
  requirement and subscription bootstrap, which call code that is not part of
  this model.
- Authentication (`authenticate.admin`, `unauthenticated.admin`), reading the
  `shop` query parameter, form and JSON decoding: transport. The handlers take
  the shop and the decoded request as parameters. `parseFloat` is not
  modelled; the form holds its results.
- The customer API's reply body, which the consent branch returns as
  `customerResponse` text. The model keeps which call was made, not the reply.
  The GraphQL query text, `console.log` and JSON stringifying are left out
  too.
- Errors thrown by the external services or by the database, including a
  customer without an `emailMarketingConsent` object: the source does not
  handle them, so they end the request; the model has no exceptions.
- A `score` that is not a number, and a `setUserStats` that is truthy but not
  an object: scores are integers here, and a submission always has a game
  string and a score.
- JavaScript truthiness of the request fields other than `email`: each one is
  a boolean saying whether a truthy value was sent.
- IEEE floating-point rounding in `lowProb + midProb + highProb == 1`.
  Arithmetic is exact on reals, so some inputs that fail in JavaScript
  succeed here.
- Lost-update races between concurrent requests: each request is one
  atomic step.
- No rollback of discount updates already pushed when a later one fails. The
  model records these calls (`PushChangedTiers`), and the source never undoes
  them either.
- Infinite numbers: `parseFloat` also returns Infinity and -Infinity (for
  "Infinity" or "1e400"). The source lets such percentages through the order
  check at app/routes/app._index.jsx:123, sends them to the discount service
  and persists them. The model's form holds only finite reals and NaN (None),
  so these inputs are outside it.
- Popup.CustomerApi.UpdateEmailMarketingConsent: records the call only. Its
  effect, that the customer becomes SUBSCRIBED, is not modelled, because
  `directory` is a fixed oracle for one request. A later request that sees the
  change is modelled by constructing a new `CustomerApi`.
- Popup.CustomerApi.CreateCustomer: records the call only. The new SUBSCRIBED
  customer does not appear in `directory` for the same reason. Its id and its
  place in the query's result order are chosen by the external system and are
  unknown.
