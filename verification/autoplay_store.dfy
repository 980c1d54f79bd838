/**
 The per-guild autoplay flags: an in-memory map from guild id to boolean.
 A guild that has never been toggled has no entry and reads as `false`.
 */
module AutoplayStore {

  /** Discord guild (server) identifier. */
  type GuildId = string

  /** The `autoplayState` map. */
  type Store = map<GuildId, bool>

  /** The store before any command has been seen. */
  const Empty: Store := map[]

  /** The flag as the bot reads it: a missing entry counts as `false`. */
  predicate Observed(m: Store, g: GuildId) {
    g in m && m[g]
  }

  /**
   Flip the observed flag of `g` and store the result. The entry for `g`
   now exists and holds the negation of what was read; every other guild
   keeps its entry (or its absence) unchanged.
   */
  function Toggle(m: Store, g: GuildId): (m': Store)
    ensures m'.Keys == m.Keys + {g}
    ensures m'[g] == !Observed(m, g)
    ensures forall h :: h in m && h != g ==> m'[h] == m[h]
  {
    m[g := !Observed(m, g)]
  }

  /** Toggling a guild with no entry stores `true`. */
  lemma ToggleUnsetEnables(m: Store, g: GuildId)
    requires g !in m
    ensures g in Toggle(m, g) && Toggle(m, g)[g]
    ensures Observed(Toggle(m, g), g)
  {
  }

  /** Toggling one guild leaves every other guild's observed flag as it was. */
  lemma ToggleFrame(m: Store, g: GuildId, h: GuildId)
    requires h != g
    ensures Observed(Toggle(m, g), h) == Observed(m, h)
  {
  }

  /** After a toggle, the flag read for the toggled guild is the opposite of before. */
  lemma ToggleFlips(m: Store, g: GuildId)
    ensures Observed(Toggle(m, g), g) == !Observed(m, g)
  {
  }

  /** Toggling the same guild twice restores every guild's observed flag. */
  lemma ToggleTwiceObserved(m: Store, g: GuildId, h: GuildId)
    ensures Observed(Toggle(Toggle(m, g), g), h) == Observed(m, h)
  {
  }

  /**
   Toggling twice gives back the very same map exactly when the guild
   already had an entry; otherwise it leaves a `false` entry behind.
   */
  lemma ToggleTwiceMap(m: Store, g: GuildId)
    ensures Toggle(Toggle(m, g), g) == m[g := Observed(m, g)]
    ensures Toggle(Toggle(m, g), g) == m <==> g in m
  {
  }
}
