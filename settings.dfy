/** The merchant's configuration save (the `action` of app/routes/app._index.jsx,
    lines 77-155): load the shop's row, apply the game flags, check the
    probabilities and the tier order, push every changed discount percentage to
    the external discount service, and write the row back only if all of that
    succeeded. */
module Settings {
  import opened Wrappers
  import opened Db

  const SuccessMessage := "Updated successfully"
  const ProbabilityMessage := "Probabilities must add up to 100"
  const TierOrderMessage := "Higher tier discounts must provide a larger percentage off than the tiers below them"
  const UpdateFailedMessage := "Update failed"

  /** The submitted form. The six numbers are what parseFloat makes of their
      fields, with None for NaN (a missing or unparsable field); the two flags
      are the raw field strings, None when the field is absent. */
  datatype SettingsForm = SettingsForm(
    lowPctOff: Option<real>, midPctOff: Option<real>, highPctOff: Option<real>,
    lowProb: Option<real>, midProb: Option<real>, highProb: Option<real>,
    useWordGame: Option<string>, useBirdGame: Option<string>)

  /** The JSON reply `{success, message}`. */
  datatype SaveReply = SaveReply(success: bool, message: string)

  /** `lowProb + midProb + highProb == 1`; false as soon as one of them is NaN. */
  predicate ProbabilitiesSumToOne(f: SettingsForm)
  {
    && f.lowProb.Some? && f.midProb.Some? && f.highProb.Some?
    && f.lowProb.value + f.midProb.value + f.highProb.value == 1.0
  }

  /** `lowPctOff < midPctOff && midPctOff < highPctOff`; false as soon as one of
      them is NaN. */
  predicate TiersAscending(f: SettingsForm)
  {
    && f.lowPctOff.Some? && f.midPctOff.Some? && f.highPctOff.Some?
    && f.lowPctOff.value < f.midPctOff.value && f.midPctOff.value < f.highPctOff.value
  }

  function SubmittedPct(f: SettingsForm, t: Tier): real
    requires TiersAscending(f)
  {
    match t
    case Low => f.lowPctOff.value
    case Mid => f.midPctOff.value
    case High => f.highPctOff.value
  }

  function Rank(t: Tier): nat
  {
    match t
    case Low => 0
    case Mid => 1
    case High => 2
  }

  /** A game flag after the form: `value === 'true'` when the field is present,
      the stored flag otherwise. */
  function FlagAfter(stored: bool, field: Option<string>): bool
  {
    match field
    case None => stored
    case Some(v) => v == "true"
  }

  /** The row the save writes: the loaded row with the submitted flags,
      probabilities and percentages. */
  function Merge(c: StoreConfig, f: SettingsForm): (m: StoreConfig)
    requires ProbabilitiesSumToOne(f) && TiersAscending(f)
    ensures WellFormed(m)
    ensures f.useWordGame.Some? ==> m.useWordGame == (f.useWordGame.value == "true")
    ensures f.useWordGame.None? ==> m.useWordGame == c.useWordGame
    ensures f.useBirdGame.Some? ==> m.useBirdGame == (f.useBirdGame.value == "true")
    ensures f.useBirdGame.None? ==> m.useBirdGame == c.useBirdGame
    ensures forall t :: PctOff(m, t) == SubmittedPct(f, t) && DiscountId(m, t) == DiscountId(c, t)
    ensures m.lowProb == f.lowProb.value && m.midProb == f.midProb.value && m.highProb == f.highProb.value
    ensures m.account == c.account
  {
    WithPercentages(WithProbabilities(WithFlags(c, f), f), f)
  }

  /** Lines 100-106: the row with the game flags applied. */
  function WithFlags(c: StoreConfig, f: SettingsForm): StoreConfig
  {
    c.(useWordGame := FlagAfter(c.useWordGame, f.useWordGame),
       useBirdGame := FlagAfter(c.useBirdGame, f.useBirdGame))
  }

  /** Lines 109-117: the row with the submitted probabilities. */
  function WithProbabilities(c: StoreConfig, f: SettingsForm): StoreConfig
    requires ProbabilitiesSumToOne(f)
  {
    c.(lowProb := f.lowProb.value, midProb := f.midProb.value, highProb := f.highProb.value)
  }

  /** Lines 125-137: the row with the submitted percentages. */
  function WithPercentages(c: StoreConfig, f: SettingsForm): StoreConfig
    requires TiersAscending(f)
  {
    c.(lowPctOff := f.lowPctOff.value, midPctOff := f.midPctOff.value, highPctOff := f.highPctOff.value)
  }

  /** One call of updateDiscountPercentage(discountId, pctOff); `tier` records
      which tier it was made for. */
  datatype SyncCall = SyncCall(tier: Tier, discountId: string, pctOff: real)

  /** The call that would push tier `t`'s submitted percentage. */
  function CallFor(c: StoreConfig, f: SettingsForm, t: Tier): SyncCall
    requires TiersAscending(f)
  {
    SyncCall(t, DiscountId(c, t), SubmittedPct(f, t))
  }

  /** The call for one tier, if its percentage changed. */
  function SyncIfChanged(t: Tier, discountId: string, stored: real, submitted: real): seq<SyncCall>
  {
    if stored != submitted then [SyncCall(t, discountId, submitted)] else []
  }

  /** The discount-service calls a save issues once both checks have passed:
      one for each tier whose submitted percentage differs from the stored
      one, carrying that tier's discount id and new percentage, in the order
      low, mid, high. */
  function PendingSyncs(c: StoreConfig, f: SettingsForm): (calls: seq<SyncCall>)
    requires TiersAscending(f)
    ensures forall i :: 0 <= i < |calls| ==> calls[i] == CallFor(c, f, calls[i].tier)
    ensures forall t :: CallFor(c, f, t) in calls <==> PctOff(c, t) != SubmittedPct(f, t)
    ensures forall i, j :: 0 <= i < j < |calls| ==> Rank(calls[i].tier) < Rank(calls[j].tier)
  {
    SyncIfChanged(Low, c.lowDiscountId, c.lowPctOff, f.lowPctOff.value)
    + SyncIfChanged(Mid, c.midDiscountId, c.midPctOff, f.midPctOff.value)
    + SyncIfChanged(High, c.highDiscountId, c.highPctOff, f.highPctOff.value)
  }

  /** Whether the discount service accepted every one of `calls`. */
  predicate AllAccepted(calls: seq<SyncCall>, answer: (string, real) -> bool)
  {
    forall i :: 0 <= i < |calls| ==> answer(calls[i].discountId, calls[i].pctOff)
  }

  /** The external discount-coupon service, as an oracle: `answer` says whether
      it accepts a new percentage for a discount id, and `calls` logs every call
      in order. */
  class DiscountApi {
    const answer: (string, real) -> bool
    ghost var calls: seq<SyncCall>

    constructor (answer: (string, real) -> bool)
      ensures this.answer == answer && calls == []
    {
      this.answer := answer;
      calls := [];
    }

    method UpdateDiscountPercentage(ghost tier: Tier, discountId: string, pctOff: real) returns (ok: bool)
      modifies this
      ensures ok == answer(discountId, pctOff)
      ensures calls == old(calls) + [SyncCall(tier, discountId, pctOff)]
    {
      ok := answer(discountId, pctOff);
      calls := calls + [SyncCall(tier, discountId, pctOff)];
    }
  }

  /** Lines 100-106: set each game flag whose field is present to whether the
      field is the string "true". */
  method ApplyFlags(store: StoreConfig, form: SettingsForm) returns (applied: StoreConfig)
    ensures applied == WithFlags(store, form)
  {
    applied := store;
    if form.useWordGame.Some? {
      applied := applied.(useWordGame := form.useWordGame.value == "true");
    }
    if form.useBirdGame.Some? {
      applied := applied.(useBirdGame := form.useBirdGame.value == "true");
    }
  }

  /** Lines 109-117: copy each submitted probability that differs from the
      stored one into the loaded row. */
  method ApplyProbabilities(store: StoreConfig, form: SettingsForm) returns (applied: StoreConfig)
    requires ProbabilitiesSumToOne(form)
    ensures applied == WithProbabilities(store, form)
  {
    applied := store;
    if applied.lowProb != form.lowProb.value {
      applied := applied.(lowProb := form.lowProb.value);
    }
    if applied.midProb != form.midProb.value {
      applied := applied.(midProb := form.midProb.value);
    }
    if applied.highProb != form.highProb.value {
      applied := applied.(highProb := form.highProb.value);
    }
  }

  /** One step of lines 125-137: when tier `t`'s submitted percentage differs
      from the stored one, call the discount service and fold its answer into
      `success` (the call is made first, so it happens even after a refusal). */
  method SyncTier(api: DiscountApi, ghost t: Tier, discountId: string, stored: real, submitted: real, success: bool)
    returns (ok: bool)
    modifies api
    ensures api.calls == old(api.calls) + SyncIfChanged(t, discountId, stored, submitted)
    ensures ok <==> success && AllAccepted(SyncIfChanged(t, discountId, stored, submitted), api.answer)
  {
    ok := success;
    if stored != submitted {
      var accepted := api.UpdateDiscountPercentage(t, discountId, submitted);
      ok := accepted && success;
      AllAcceptedOne(SyncCall(t, discountId, submitted), api.answer);
    }
  }

  /** Lines 124-138: with both checks passed, push each changed tier's new
      percentage to the discount service, low, mid, high, and set it in the
      loaded row. Every changed tier is pushed even after an earlier refusal. */
  method PushChangedTiers(api: DiscountApi, store: StoreConfig, form: SettingsForm) returns (success: bool, pushed: StoreConfig)
    requires TiersAscending(form)
    modifies api
    ensures api.calls == old(api.calls) + PendingSyncs(store, form)
    ensures success <==> AllAccepted(PendingSyncs(store, form), api.answer)
    ensures pushed == WithPercentages(store, form)
  {
    var low, mid, high := form.lowPctOff.value, form.midPctOff.value, form.highPctOff.value;
    ghost var lowCalls := SyncIfChanged(Low, store.lowDiscountId, store.lowPctOff, low);
    ghost var midCalls := SyncIfChanged(Mid, store.midDiscountId, store.midPctOff, mid);
    ghost var highCalls := SyncIfChanged(High, store.highDiscountId, store.highPctOff, high);
    // The first call assigns `success` outright; it is still true at that point.
    success := SyncTier(api, Low, store.lowDiscountId, store.lowPctOff, low, true);
    success := SyncTier(api, Mid, store.midDiscountId, store.midPctOff, mid, success);
    AllAcceptedAppend(lowCalls, midCalls, api.answer);
    success := SyncTier(api, High, store.highDiscountId, store.highPctOff, high, success);
    AllAcceptedAppend(lowCalls + midCalls, highCalls, api.answer);
    assert api.calls == old(api.calls) + (lowCalls + midCalls + highCalls);
    pushed := store.(lowPctOff := low, midPctOff := mid, highPctOff := high);
  }

  lemma AllAcceptedOne(c: SyncCall, answer: (string, real) -> bool)
    ensures AllAccepted([c], answer) <==> answer(c.discountId, c.pctOff)
  {
    assert [c][0] == c;
  }

  lemma AllAcceptedAppend(a: seq<SyncCall>, b: seq<SyncCall>, answer: (string, real) -> bool)
    ensures AllAccepted(a + b, answer) <==> AllAccepted(a, answer) && AllAccepted(b, answer)
  {
    if AllAccepted(a, answer) && AllAccepted(b, answer) {
      forall i | 0 <= i < |a + b|
        ensures answer((a + b)[i].discountId, (a + b)[i].pctOff)
      {
        if i < |a| {
          assert (a + b)[i] == a[i];
        } else {
          assert (a + b)[i] == b[i - |a|];
        }
      }
    }
    if AllAccepted(a + b, answer) {
      forall i | 0 <= i < |a|
        ensures answer(a[i].discountId, a[i].pctOff)
      {
        assert (a + b)[i] == a[i];
      }
      forall i | 0 <= i < |b|
        ensures answer(b[i].discountId, b[i].pctOff)
      {
        assert (a + b)[|a| + i] == b[i];
      }
    }
  }

  /** The reply a save gives for the loaded row `c`, as a decision table: a
      tier-order violation is reported first (its message replaces the
      probability message when both checks fail), then a probability sum
      other than one, then a refused discount-service call. */
  function Outcome(c: StoreConfig, f: SettingsForm, answer: (string, real) -> bool): SaveReply
  {
    if !TiersAscending(f) then SaveReply(false, TierOrderMessage)
    else if !ProbabilitiesSumToOne(f) then SaveReply(false, ProbabilityMessage)
    else if !AllAccepted(PendingSyncs(c, f), answer) then SaveReply(false, UpdateFailedMessage)
    else SaveReply(true, SuccessMessage)
  }

  /** The discount-service calls a save makes for the loaded row `c`: none
      unless both checks pass. */
  function IssuedSyncs(c: StoreConfig, f: SettingsForm): seq<SyncCall>
  {
    if ProbabilitiesSumToOne(f) && TiersAscending(f) then PendingSyncs(c, f) else []
  }

  /** A form that fails either check gets `success: false`, issues no
      discount-service call and (by SaveSettings) writes nothing; the message
      is the tier-order one whenever the order check fails, the probability
      one otherwise. */
  lemma RejectedForm(c: StoreConfig, f: SettingsForm, answer: (string, real) -> bool)
    requires !ProbabilitiesSumToOne(f) || !TiersAscending(f)
    ensures !Outcome(c, f, answer).success
    ensures IssuedSyncs(c, f) == []
    ensures Outcome(c, f, answer).message == if TiersAscending(f) then ProbabilityMessage else TierOrderMessage
  {
  }

  /** A form that passes both checks issues exactly the pending calls, and
      succeeds exactly when the service accepts all of them; otherwise the
      message is "Update failed". */
  lemma AcceptedForm(c: StoreConfig, f: SettingsForm, answer: (string, real) -> bool)
    requires ProbabilitiesSumToOne(f) && TiersAscending(f)
    ensures IssuedSyncs(c, f) == PendingSyncs(c, f)
    ensures Outcome(c, f, answer).success <==> AllAccepted(PendingSyncs(c, f), answer)
    ensures Outcome(c, f, answer).message == if AllAccepted(PendingSyncs(c, f), answer) then SuccessMessage else UpdateFailedMessage
  {
  }

  /** Resubmitting the stored percentages issues no call at all. */
  lemma UnchangedTiersIssueNoCalls(c: StoreConfig, f: SettingsForm)
    requires TiersAscending(f)
    requires f.lowPctOff.value == c.lowPctOff && f.midPctOff.value == c.midPctOff && f.highPctOff.value == c.highPctOff
    ensures PendingSyncs(c, f) == []
  {
  }

  /** The configuration save for `shop`. None is the handler's `null` reply for
      a shop without a row. */
  method SaveSettings(db: Database, api: DiscountApi, shop: string, form: SettingsForm) returns (r: Option<SaveReply>)
    modifies db, api
    ensures db.users == old(db.users)
    // No row: null reply, no call, no write.
    ensures shop !in old(db.stores) ==>
      r == None && api.calls == old(api.calls) && db.stores == old(db.stores) && db.writes == old(db.writes)
    // A row: the decision table's reply, the calls it implies, and one write of
    // the merged row exactly on success.
    ensures shop in old(db.stores) ==> var c := old(db.stores)[shop];
      && r == Some(Outcome(c, form, api.answer))
      && api.calls == old(api.calls) + IssuedSyncs(c, form)
      && db.stores == (if r.value.success then old(db.stores)[shop := Merge(c, form)] else old(db.stores))
      && db.writes == old(db.writes) + (if r.value.success then [StoreUpdated(shop)] else [])
    // Whatever a save persists keeps the tier order and the probability sum.
    ensures r.Some? && r.value.success ==> WellFormed(db.stores[shop])
  {
    if shop !in db.stores {
      return None;
    }
    var store := db.stores[shop];
    ghost var loaded := store;
    var success := true;
    var message := SuccessMessage;

    store := ApplyFlags(store, form);

    if ProbabilitiesSumToOne(form) {
      store := ApplyProbabilities(store, form);
    } else {
      success := false;
      message := ProbabilityMessage;
    }

    if TiersAscending(form) {
      if success {
        assert forall t :: PctOff(store, t) == PctOff(loaded, t) && DiscountId(store, t) == DiscountId(loaded, t);
        assert PendingSyncs(store, form) == PendingSyncs(loaded, form);
        success, store := PushChangedTiers(api, store, form);
        assert store == Merge(loaded, form);
        if !success {
          message := UpdateFailedMessage;
        } else {
          db.UpdateStore(shop, store);
        }
      }
    } else {
      success := false;
      message := TierOrderMessage;
    }

    return Some(SaveReply(success, message));
  }
}
