/** What RevokeUnused does in clock time, although it compares stored texts. */
module KeyAge {
  import opened TokenTables
  import T = Timestamps

  /** A key that was created, or last used, a second or more after the cutoff is never revoked as unused. */
  lemma RecentKeysStay(key: Key, cutoff: nat, text: int -> string)
    requires T.Renders(text) && T.Dated(key.created) && (key.lastUsed.Some? ==> T.Dated(key.lastUsed.value))
    requires cutoff + T.SECOND <= key.created || (key.lastUsed.Some? && cutoff + T.SECOND <= key.lastUsed.value)
    ensures !Stale(key, text(cutoff), text)
  {
    if cutoff + T.SECOND <= key.created {
      T.TextsApart(text(cutoff), cutoff, text(key.created), key.created);
    } else {
      T.TextsApart(text(cutoff), cutoff, text(key.lastUsed.value), key.lastUsed.value);
    }
  }

  /** A key that was created a second or more before the cutoff, and not used since then, is selected. */
  lemma OldKeysAreStale(key: Key, cutoff: nat, text: int -> string)
    requires T.Renders(text) && T.Dated(cutoff) && key.created + T.SECOND <= cutoff
    requires key.lastUsed.Some? ==> key.lastUsed.value + T.SECOND <= cutoff
    ensures Stale(key, text(cutoff), text)
  {
    T.TextsApart(text(key.created), key.created, text(cutoff), cutoff);
    if key.lastUsed.Some? { T.TextsApart(text(key.lastUsed.value), key.lastUsed.value, text(cutoff), cutoff); }
  }
}
