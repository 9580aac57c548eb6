/** The persistent store reached through the ORM: the `store` table (one
    configuration row per merchant shop) and the `user` table (one statistics
    row per player e-mail). Reads are plain field reads; each write goes through
    one of the methods below, which also record it in a ghost log so that
    "nothing was written" can be stated. */
module Db {
  import opened Wrappers
  import opened Stats

  /** The three discount tiers. */
  datatype Tier = Low | Mid | High

  /** Billing linkage and sales aggregates kept in the same row; the two
      handlers modelled here carry them through unchanged. */
  datatype Account = Account(
    billingId: Option<string>, nextPeriod: Option<string>,
    totalSales: real, currSales: real, currencyCode: string, hasCoupon: bool)

  /** One row of the store table. */
  datatype StoreConfig = StoreConfig(
    lowPctOff: real, midPctOff: real, highPctOff: real,
    lowProb: real, midProb: real, highProb: real,
    lowDiscountId: string, midDiscountId: string, highDiscountId: string,
    useWordGame: bool, useBirdGame: bool,
    account: Account)

  function PctOff(c: StoreConfig, t: Tier): real
  {
    match t
    case Low => c.lowPctOff
    case Mid => c.midPctOff
    case High => c.highPctOff
  }

  function DiscountId(c: StoreConfig, t: Tier): string
  {
    match t
    case Low => c.lowDiscountId
    case Mid => c.midDiscountId
    case High => c.highDiscountId
  }

  /** The invariant the configuration screen is meant to keep: strictly
      ascending discounts and probabilities that sum to one. */
  predicate WellFormed(c: StoreConfig)
  {
    c.lowPctOff < c.midPctOff < c.highPctOff && c.lowProb + c.midProb + c.highProb == 1.0
  }

  function Lookup<K, V>(m: map<K, V>, k: K): (r: Option<V>)
    ensures r.Some? <==> k in m
    ensures r.Some? ==> r.value == m[k]
  {
    if k in m then Some(m[k]) else None
  }

  /** One write to the store, as the ghost log records it. */
  datatype Write = StoreUpdated(shop: string) | UserCreated(email: string) | UserUpdated(email: string)

  class Database {
    var stores: map<string, StoreConfig>
    var users: map<string, PlayerStats>
    /** The schema's default values of a user row, which a create leaves to the
        database for the fields it does not set. */
    const userDefaults: PlayerStats
    ghost var writes: seq<Write>

    constructor (stores: map<string, StoreConfig>, users: map<string, PlayerStats>, userDefaults: PlayerStats)
      ensures this.stores == stores && this.users == users && this.userDefaults == userDefaults
      ensures writes == []
    {
      this.stores := stores;
      this.users := users;
      this.userDefaults := userDefaults;
      writes := [];
    }

    /** `store.update` on the shop's row with every field of `c`. */
    method UpdateStore(shop: string, c: StoreConfig)
      requires shop in stores
      modifies this`stores, this`writes
      ensures stores == old(stores)[shop := c]
      ensures writes == old(writes) + [StoreUpdated(shop)]
    {
      stores := stores[shop := c];
      writes := writes + [StoreUpdated(shop)];
    }

    /** `user.create` with the counters of game `g`; the other game's counters
        take the schema defaults. Returns the game's counters of the new row. */
    method CreateUser(email: string, g: Game, s: GameStats) returns (created: GameStats)
      requires email !in users
      modifies this`users, this`writes
      ensures users == old(users)[email := With(userDefaults, g, s)]
      ensures writes == old(writes) + [UserCreated(email)]
      ensures created == s
    {
      users := users[email := With(userDefaults, g, s)];
      writes := writes + [UserCreated(email)];
      created := s;
    }

    /** `user.update` of the counters of game `g` in an existing row. Returns
        the game's counters of the updated row. */
    method UpdateUser(email: string, g: Game, s: GameStats) returns (updated: GameStats)
      requires email in users
      modifies this`users, this`writes
      ensures users == old(users)[email := With(old(users)[email], g, s)]
      ensures writes == old(writes) + [UserUpdated(email)]
      ensures updated == s
    {
      users := users[email := With(users[email], g, s)];
      writes := writes + [UserUpdated(email)];
      updated := s;
    }
  }
}
