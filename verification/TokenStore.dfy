/** The handlers' transactions as they run: statement by statement on the tables, with rollback. */
module TokenStore {
  import opened Prelude
  import opened TokenTables
  import Text

  /** Every row but one is as it was. */
  predicate SameElsewhere(keys: map<nat, Key>, after: map<nat, Key>, id: nat) {
    keys - {id} == after - {id}
  }

  /** The statements of the second exchange transaction. */
  datatype MintStatement = KeyInsert | GrantInsert | HistoryInsert | Commit

  class Store {
    var codes: map<Token, Code>
    var grants: map<Token, Grant>
    var history: map<Token, Retained>
    var keys: map<nat, Key>
    var nextKey: nat
    var invites: map<string, Invite>
    var nextInvite: nat

    ghost function Rows(): Tables
      reads this
    {
      Tables(codes, grants, history, keys, nextKey, invites, nextInvite)
    }

    /**
     * RedeemTx run without interference: the SELECT with its checks, then the guarded UPDATE. textLater is what
     * SQLite answers when the UPDATE compares the expiry as text.
     */
    method RedeemTx(code: string, agent: string, now: Instant, textLater: bool) returns (r: Result<nat, RedeemError>)
      modifies this`invites
      ensures CheckInvite(old(invites), code, agent, now).Err? ==> r == CheckInvite(old(invites), code, agent, now)
      ensures CheckInvite(old(invites), code, agent, now).Ok? && !Claimable(old(invites), Text.TrimSpace(code), textLater)
              ==> r == Err(Exhausted)
      ensures r.Ok? <==>
                CheckInvite(old(invites), code, agent, now).Ok? && Claimable(old(invites), Text.TrimSpace(code), textLater)
      ensures invites == if r.Ok? then Claimed(old(invites), Text.TrimSpace(code)) else old(invites)
      ensures r.Ok? ==> r.value == old(invites)[Text.TrimSpace(code)].id
    {
      var c := Text.TrimSpace(code);
      if c == "" { return Err(NotFound); }
      if c !in invites { return Err(NotFound); }
      var row := invites[c];
      if row.revoked { return Err(Revoked); }
      if row.bind != "" && Text.TrimSpace(agent) != row.bind { return Err(LabelBound); }
      if row.expires <= now { return Err(Expired); }
      if row.count >= row.max { return Err(Exhausted); }
      // UPDATE ... WHERE revoked_at IS NULL AND redemption_count < max_redemptions AND expires_at > ?
      if !(c in invites && !invites[c].revoked && invites[c].count < invites[c].max && textLater) {
        return Err(Exhausted);
      }
      invites := invites[c := invites[c].(count := invites[c].count + 1)];
      return Ok(row.id);
    }

    /** The first exchange transaction: read the code row and delete it, whatever happens afterwards. */
    method TakeCode(token: Token) returns (row: Option<Code>)
      modifies this`codes
      ensures row == if token in old(codes) then Some(old(codes)[token]) else None
      ensures codes == old(codes) - {token}
    {
      if token !in codes { return None; }
      row := Some(codes[token]);
      codes := codes - {token};
    }

    /** insertKeyDetails: a new enabled key under the next AUTOINCREMENT id. */
    method InsertKey(owned: bool, via: Via, ref: Option<nat>, now: Instant) returns (id: nat)
      modifies this`keys, this`nextKey
      ensures id == old(nextKey) && nextKey == id + 1 && keys == old(keys)[id := NewKey(owned, via, ref, now)]
    {
      id := nextKey;
      keys := keys[id := Key(owned, true, None, now, None, via, ref)];
      nextKey := nextKey + 1;
    }

    /** Service.Enable; revoked_at is not cleared, so a revoked key stays unusable. */
    method Enable(id: nat)
      modifies this`keys
      ensures keys == KeysAfter(old(keys), nextKey, KeyOp.Enable(id), 0) && SameElsewhere(old(keys), keys, id)
      ensures forall k :: KeyUsable(Rows(), k) <==>
                            old(KeyUsable(Rows(), k)) || (k == id && k in old(keys) && old(keys)[k].revoked.None?)
    {
      if id in keys { keys := keys[id := keys[id].(enabled := true)]; }
    }

    /** Service.Disable: the key is unusable until it is enabled again; the rest of its row stays. */
    method Disable(id: nat)
      modifies this`keys
      ensures keys == KeysAfter(old(keys), nextKey, KeyOp.Disable(id), 0) && SameElsewhere(old(keys), keys, id)
      ensures keys.Keys == old(keys).Keys
      ensures id in keys ==> !keys[id].enabled && keys[id].(enabled := old(keys)[id].enabled) == old(keys)[id]
      ensures forall k :: KeyUsable(Rows(), k) <==> old(KeyUsable(Rows(), k)) && k != id
    {
      if id in keys { keys := keys[id := keys[id].(enabled := false)]; }
    }

    /** Service.Revoke: unlike Disable it cannot be undone by Enable. */
    method Revoke(id: nat, now: Instant)
      modifies this`keys
      ensures keys == KeysAfter(old(keys), nextKey, KeyOp.Revoke(id), now) && SameElsewhere(old(keys), keys, id)
      ensures id in keys ==> keys[id].revoked == Some(now)
      ensures forall k :: KeyUsable(Rows(), k) <==> old(KeyUsable(Rows(), k)) && k != id
    {
      if id in keys { keys := keys[id := keys[id].(enabled := false, revoked := Some(now))]; }
    }

    /**
     * RevokeUnused for a number of days; None when it is not positive. The cutoff is counted from one clock reading and
     * the revocation dated with a later one. text renders an instant as it is stored; the result is the number of rows
     * the UPDATE affected.
     */
    method RevokeUnused(days: int, now: Instant, later: Instant, text: int -> string) returns (affected: Option<nat>)
      modifies this`keys
      ensures days <= 0 ==> affected == None && keys == old(keys)
      ensures days > 0 ==>
                var stale := StaleKeys(old(keys), text(now - days * DAY), text);
                keys == KeysAfter(old(keys), nextKey, KeyOp.RevokeUnused(stale), later)
                && affected == Some(|set k | k in stale && KeyUsable(old(Rows()), k)|)
      ensures forall k :: k in keys && keys[k] != old(keys)[k] ==>
                            days > 0 && Stale(old(keys)[k], text(now - days * DAY), text)
                              && keys[k].revoked == Some(later)
    {
      if days <= 0 { return None; }
      var cutoff := text(now - days * DAY);
      var hit := set k | k in keys && keys[k].enabled && keys[k].revoked.None? && Stale(keys[k], cutoff, text);
      ghost var stale := StaleKeys(keys, cutoff, text);
      assert hit == set k | k in stale && KeyUsable(Rows(), k);
      keys := map k | k in keys :: if k in hit then keys[k].(enabled := false, revoked := Some(later)) else keys[k];
      affected := Some(|hit|);
    }

    /** Service.Delete: the key is gone, and with it its usability; no other key is touched. */
    method Delete(id: nat)
      modifies this`keys
      ensures keys == KeysAfter(old(keys), nextKey, KeyOp.Delete(id), 0) && SameElsewhere(old(keys), keys, id)
      ensures id !in keys && nextKey == old(nextKey)
      ensures forall k :: KeyUsable(Rows(), k) <==> old(KeyUsable(Rows(), k)) && k != id
    {
      keys := keys - {id};
    }

    /** Service.Touch: only the time of last use changes, so no key becomes or stops being usable. */
    method Touch(id: nat, now: Instant)
      modifies this`keys
      ensures keys == KeysAfter(old(keys), nextKey, KeyOp.Touch(id), now) && SameElsewhere(old(keys), keys, id)
      ensures keys.Keys == old(keys).Keys
      ensures id in keys ==> keys[id].lastUsed == Some(now) && keys[id].(lastUsed := old(keys)[id].lastUsed) == old(keys)[id]
      ensures forall k :: KeyUsable(Rows(), k) <==> old(KeyUsable(Rows(), k))
    {
      if id in keys { keys := keys[id := keys[id].(lastUsed := Some(now))]; }
    }

    /** InviteService.Revoke: a row that is already revoked is left alone, an unknown id is an error. */
    method RevokeInvite(id: nat) returns (found: bool)
      modifies this`invites
      ensures found <==> exists c :: c in old(invites) && old(invites)[c].id == id
      ensures invites == InviteRevoked(old(invites), id)
    {
      found := exists c :: c in invites && invites[c].id == id;
      invites := map c | c in invites ::
          if invites[c].id == id && !invites[c].revoked then invites[c].(revoked := true) else invites[c];
    }

    /** The second exchange transaction; failing is the statement, if any, at which it is given up and rolled back. */
    method MintGrant(code: Code, newToken: Token, now: Instant, failing: Option<MintStatement>) returns (ok: bool)
      modifies this
      ensures ok == failing.None?
      ensures Rows() == if ok then Minted(old(Rows()), code, newToken, now) else old(Rows())
    {
      if failing == Some(KeyInsert) { return false; }
      var savedKeys, savedNext, savedGrants, savedHistory := keys, nextKey, grants, history;
      var id := InsertKey(true, code.via, code.ref, now);
      if failing != Some(GrantInsert) {
        grants := grants[newToken := Grant(id, code.client, now + ACCESS_LIFE, now + REFRESH_LIFE, now, code.resource,
                                           code.scope, Rooted(newToken))];
        if failing != Some(HistoryInsert) {
          history := history[newToken := Retained(Rooted(newToken), id, now + REFRESH_LIFE)];
          // otherwise it is the commit that fails
          if failing.None? { return true; }
        }
      }
      keys, nextKey, grants, history := savedKeys, savedNext, savedGrants, savedHistory;
      return false;
    }

    /** The refresh transaction: the old grant is deleted before the remaining checks, and put back when one fails. */
    method Refresh(token: Token, client: string, audience: string, newToken: Token, now: Instant, later: Instant)
      returns (outcome: Outcome)
      modifies this
      ensures outcome == RefreshOutcome(old(Rows()), token, client, audience, now)
      ensures Rows() == AfterRefresh(old(Rows()), token, outcome, newToken, later)
      ensures outcome.Refused? ==> Rows() == old(Rows())
    {
      if token == "" { return Refused; }
      var saved := grants;
      if token !in grants {
        if token in history {
          var reused := history[token];
          if now < reused.expires {
            var ids := set h | h in history && history[h].family == reused.family :: history[h].key;
            keys := map k | k in keys :: if k in ids then keys[k].(enabled := false) else keys[k];
            grants := map h | h in grants && grants[h].family != reused.family :: grants[h];
            return Replayed(reused.family);
          }
        }
        return Refused;
      }
      var g := grants[token];
      if g.resource != audience || !g.scope.offline || (client != "" && g.client != client) {
        return Refused;
      }
      grants := grants - {token};
      if now > g.refreshExpires {
        grants := saved;
        return Refused;
      }
      if g.key !in keys || !keys[g.key].enabled || keys[g.key].revoked.Some? {
        grants := saved;
        return Refused;
      }
      var prior := keys[g.key];
      keys := keys[g.key := prior.(enabled := false)];
      var id := InsertKey(true, prior.via, prior.ref, later);
      grants := grants[newToken := Grant(id, g.client, later + ACCESS_LIFE, g.refreshExpires, later, g.resource,
                                         g.scope, g.family)];
      history := history[newToken := Retained(g.family, id, g.refreshExpires)];
      return Rotated(g.key);
    }

    method Execute(s: Statement, resource: string, now: Instant)
      modifies this
      ensures Rows() == RunStatement(old(Rows()), s, resource, now)
    {
      match s
      case BindGrants =>
        grants := map h | h in grants ::
          if grants[h].resource == "" && Owned(keys, grants[h].key)
          then grants[h].(resource := resource) else grants[h];
      case BindCodes =>
        codes := map h | h in codes :: if codes[h].resource == "" then codes[h].(resource := resource) else codes[h];
      case NameFamilies =>
        grants := map h | h in grants :: grants[h].(family := FamilyOf(grants[h]));
      case BackfillHistory =>
        history := map h | h in grants.Keys + history.Keys ::
          if h in history then history[h] else Retained(grants[h].family, grants[h].key, grants[h].refreshExpires);
      case PurgeHistory =>
        history := map h | h in history && !Purged(history[h], now) :: history[h];
    }

    /** bindLegacyGrants: the listed statements in order, all of them in one transaction. */
    method BindLegacyGrants(resource: string, now: Instant)
      modifies this
      ensures Rows() == Reconciled(old(Rows()), resource, now)
    {
      var statements := RECONCILIATION;
      for i := 0 to |statements|
        invariant Rows() == RunStatements(old(Rows()), statements[..i], resource, now)
      {
        Execute(statements[i], resource, now);
        assert statements[..i + 1][..i] == statements[..i];
      }
      assert statements[..|statements|] == RECONCILIATION;
      AllStatements(old(Rows()), resource, now);
    }
  }

  /** Running the list is running its five statements one after another. */
  lemma AllStatements(t: Tables, resource: string, now: Instant)
    ensures RunStatements(t, RECONCILIATION, resource, now) == Reconciled(t, resource, now)
  {
    var r := RECONCILIATION;
    var r4, r3, r2, r1 := r[..4], r[..3], r[..2], r[..1];
    assert r4[..3] == r3 && r3[..2] == r2 && r2[..1] == r1 && r1[..0] == [];
    var t1 := RunStatements(t, r1, resource, now);
    assert t1 == RunStatement(RunStatements(t, [], resource, now), BindGrants, resource, now);
    var t2 := RunStatements(t, r2, resource, now);
    assert t2 == RunStatement(t1, BindCodes, resource, now);
    var t3 := RunStatements(t, r3, resource, now);
    assert t3 == RunStatement(t2, NameFamilies, resource, now);
    var t4 := RunStatements(t, r4, resource, now);
    assert t4 == RunStatement(t3, BackfillHistory, resource, now);
  }
}
