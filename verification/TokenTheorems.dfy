/** What holds in every reachable state of the token service and over every run. */
module TokenTheorems {
  import opened Prelude
  import opened TokenTables
  import opened TokenProtocol
  import opened TokenInvariant

  /** w is reached from a migrated database by a run of the service. */
  ghost predicate Reached(w0: World, run: seq<Action>, w: World) {
    Start(w0) && LegalRun(w0, run) && w == Exec(w0, run)
  }

  lemma ReachedInv(w0: World, run: seq<Action>, w: World)
    requires Reached(w0, run, w)
    ensures Inv(w)
  {
    StartInv(w0);
    RunInv(w0, run);
  }

  lemma {:induction false} ExecConcat(w: World, p: seq<Action>, q: seq<Action>)
    ensures Exec(w, p + q) == Exec(Exec(w, p), q)
    ensures LegalRun(w, p + q) <==> LegalRun(w, p) && LegalRun(Exec(w, p), q)
    decreases |p|
  {
    if p == [] {
      assert p + q == q;
    } else {
      assert (p + q)[0] == p[0] && (p + q)[1..] == p[1..] + q;
      ExecConcat(Next(w, p[0]), p[1..], q);
    }
  }

  // ---------------------------------------------------------------- how grants change in one step

  /** Only the exchange, a refresh and a restart touch grants, history and families. */
  ghost predicate SameGrants(w: World, v: World) {
    v.rows.grants == w.rows.grants && v.rows.history == w.rows.history && v.past == w.past
    && v.audience == w.audience && w.used <= v.used && w.rows.nextKey <= v.rows.nextKey && w.now <= v.now
  }

  lemma OtherSteps(w: World, a: Action)
    requires !a.MintGrant? && !a.Refresh? && !a.Restart?
    ensures SameGrants(w, Next(w, a))
  {
    match a
    case Authorize(req, asked, challengeMethod, targets, registered, operator, mode) =>
      assert SameGrants(w, DoAuthorize(w, req, asked, challengeMethod, targets, registered, operator, mode));
    case SelectInvite(req) => assert SameGrants(w, DoSelectInvite(w, req));
    case ClaimInvite(req, later) => assert SameGrants(w, DoClaimInvite(w, req, later));
    case StoreCode(req, h) => assert SameGrants(w, DoStoreCode(w, req, h));
    case TakeCode(req, h, ask) => assert SameGrants(w, DoTakeCode(w, req, h, ask));
    case CheckCode(req) => assert SameGrants(w, DoCheckCode(w, req));
    case Keys(op) => assert SameGrants(w, DoKeys(w, op));
    case _ =>
  }

  /** Two versions of a grant row run from the same instant to the same expiries. */
  predicate SameTerm(a: Grant, b: Grant) {
    a.created == b.created && a.accessExpires == b.accessExpires && a.refreshExpires == b.refreshExpires
  }

  /** A grant present after a step was there before with the same key and family, or was just issued. */
  lemma GrantOrigin(w: World, a: Action, h: Token)
    requires Inv(w) && Legal(w, a) && h in Next(w, a).rows.grants
    ensures var g := Next(w, a).rows.grants[h];
      || (h in w.rows.grants && g.key == w.rows.grants[h].key && FamilyOf(g) == FamilyOf(w.rows.grants[h])
          && SameTerm(g, w.rows.grants[h]) && (!a.Restart? ==> g == w.rows.grants[h]))
      || (h !in w.used && g.key == w.rows.nextKey && a.MintGrant? && FamilyOf(g) == Rooted(h))
      || (h !in w.used && g.key == w.rows.nextKey && a.Refresh? && OutcomeAt(w, a.token, a.client).Rotated?
          && FamilyOf(g) == FamilyOf(w.rows.grants[a.token]))
  {
    if a.MintGrant? {
      if a.req in w.requests && w.requests[a.req].Checked? { MintedWorld(w, a.req, a.newToken); }
    } else if a.Refresh? {
      RefreshedGrant(w, a.token, a.client, a.newToken, a.delay, h);
    } else if a.Restart? {
      if a.issuer.Some? { ReconciledGrants(w.rows, a.issuer.value, w.now); }
    } else {
      OtherSteps(w, a);
    }
  }

  lemma RefreshedGrant(w: World, token: Token, client: string, newToken: Token, delay: nat, h: Token)
    requires Inv(w) && newToken !in w.used && h in DoRefresh(w, token, client, newToken, delay).rows.grants
    ensures var g := DoRefresh(w, token, client, newToken, delay).rows.grants[h];
      || (h in w.rows.grants && g == w.rows.grants[h])
      || (h !in w.used && g.key == w.rows.nextKey && OutcomeAt(w, token, client).Rotated?
          && FamilyOf(g) == FamilyOf(w.rows.grants[token]))
  {
    if OutcomeAt(w, token, client).Rotated? {
      RotatedWorld(w, token, client, newToken, delay);
      assert GrantOk(token, w.rows.grants[token], w.past);
    }
  }

  /** Key ids and random tokens are never given out twice. */
  lemma StepMonotone(w: World, a: Action)
    ensures w.used <= Next(w, a).used && w.rows.nextKey <= Next(w, a).rows.nextKey && w.now <= Next(w, a).now
  {
    if a.MintGrant? {
      if a.req in w.requests && w.requests[a.req].Checked? { MintedWorld(w, a.req, a.newToken); }
    } else if a.Refresh? {
      if OutcomeAt(w, a.token, a.client).Rotated? { RotatedWorld(w, a.token, a.client, a.newToken, a.delay); }
    } else if a.Restart? {
      if a.issuer.Some? { ReconciledGrants(w.rows, a.issuer.value, w.now); }
    } else {
      OtherSteps(w, a);
    }
  }

  // ---------------------------------------------------------------- families that are over

  /** No grant of the family is left. */
  ghost predicate Dead(w: World, f: Family) {
    f in w.past.families && forall h :: h in w.rows.grants ==> FamilyOf(w.rows.grants[h]) != f
  }

  lemma StepFamilies(w: World, a: Action, f: Family)
    requires Inv(w) && Legal(w, a) && f in w.past.families
    ensures f in Next(w, a).past.families && Next(w, a).past.families[f] == w.past.families[f]
  {
    if a.MintGrant? {
      MintFamilies(w, a.req, a.newToken, f);
    } else if a.Refresh? {
      RefreshFamilies(w, a.token, a.client, a.newToken, a.delay);
    } else if !a.Restart? {
      OtherSteps(w, a);
    }
  }

  lemma MintFamilies(w: World, req: nat, h: Token, f: Family)
    requires Inv(w) && h !in w.used && f in w.past.families
    ensures var families := DoMintGrant(w, req, h).past.families; f in families && families[f] == w.past.families[f]
  {
    assert f != Rooted(h);
  }

  lemma RefreshFamilies(w: World, token: Token, client: string, h: Token, delay: nat)
    ensures DoRefresh(w, token, client, h, delay).past.families == w.past.families
  {
  }

  lemma StepDead(w: World, a: Action, f: Family)
    requires Inv(w) && Legal(w, a) && Dead(w, f)
    ensures Dead(Next(w, a), f)
  {
    StepFamilies(w, a, f);
    forall h | h in Next(w, a).rows.grants ensures FamilyOf(Next(w, a).rows.grants[h]) != f {
      GrantOrigin(w, a, h);
      if a.Refresh? && OutcomeAt(w, a.token, a.client).Rotated? { assert a.token in w.rows.grants; }
    }
  }

  lemma {:induction false} RunDead(w: World, run: seq<Action>, f: Family)
    requires Inv(w) && LegalRun(w, run) && Dead(w, f)
    ensures Dead(Exec(w, run), f)
    decreases |run|
  {
    if run != [] {
      StepInv(w, run[0]);
      StepDead(w, run[0], f);
      RunDead(Next(w, run[0]), run[1..], f);
    }
  }

  /** No key of the family is accepted and no token of it, presented by any client, is rotated. */
  ghost predicate Silenced(w: World, f: Family) {
    && (forall k :: k in w.past.kin && w.past.kin[k] == f ==> !Accepted(w, k))
    && (forall h, client :: h in w.past.issued && w.past.issued[h].family == f ==> !OutcomeAt(w, h, client).Rotated?)
  }

  lemma DeadIsSilenced(w: World, f: Family)
    requires Inv(w) && Dead(w, f)
    ensures Silenced(w, f)
  {
    forall k | k in w.past.kin && w.past.kin[k] == f ensures !Accepted(w, k) { DeadKey(w, f, k); }
    forall h, client | h in w.past.issued && w.past.issued[h].family == f ensures !OutcomeAt(w, h, client).Rotated? {
      DeadToken(w, f, h, client);
    }
  }

  lemma DeadKey(w: World, f: Family, k: nat)
    requires Inv(w) && Dead(w, f) && k in w.past.kin && w.past.kin[k] == f
    ensures !Accepted(w, k)
  {
    if Accepted(w, k) { var h := KinIsGranted(w, k); }
  }

  lemma DeadToken(w: World, f: Family, h: Token, client: string)
    requires Inv(w) && Dead(w, f) && h in w.past.issued && w.past.issued[h].family == f
    ensures !OutcomeAt(w, h, client).Rotated?
  {
    assert h in w.rows.grants ==> GrantOk(h, w.rows.grants[h], w.past);
  }

  /** Presenting a token that was rotated away, before its family expires, is always recognised as a replay. */
  lemma RotatedTokenIsReplay(w: World, token: Token, client: string)
    requires Inv(w) && w.audience.Some? && token in w.past.issued && token !in w.rows.grants && token != ""
    requires w.past.issued[token].family in w.past.families
             && w.now < w.past.families[w.past.issued[token].family].expires
    ensures OutcomeAt(w, token, client) == Replayed(w.past.issued[token].family)
  {
    assert !Forgettable(token, w.rows.grants, w.past, w.now);
    assert RetainedOk(token, w.rows.history[token], w.past);
  }

  /**
   * No grant of a killed family is left; one that no restart has named yet has no second token that could be replayed.
   */
  lemma KilledIsDead(grants: map<Token, Grant>, past: Past, token: Token, f: Family)
    requires UnboundOk(grants, past) && token in past.issued && past.issued[token].family == f && token !in grants
    ensures forall h :: h in WithoutFamily(grants, f) ==> FamilyOf(grants[h]) != f
  {
  }

  /**
   * Replay kills a family for good: once a rotated token of an unexpired family is presented again, no later
   * run of the service, whatever administrators and clients do in it, accepts a key of the family or
   * refreshes one of its tokens.
   */
  lemma ReplayKillsFamily(w0: World, run: seq<Action>, w: World, token: Token, client: string, newToken: Token,
                          delay: nat, later: seq<Action>)
    requires Reached(w0, run, w) && w.audience.Some? && token != ""
    requires token in w.past.issued && token !in w.rows.grants
    requires w.past.issued[token].family in w.past.families
             && w.now < w.past.families[w.past.issued[token].family].expires
    requires Legal(w, Refresh(token, client, newToken, delay))
    requires LegalRun(Next(w, Refresh(token, client, newToken, delay)), later)
    ensures Silenced(Exec(Next(w, Refresh(token, client, newToken, delay)), later), w.past.issued[token].family)
  {
    ReachedInv(w0, run, w);
    RotatedTokenIsReplay(w, token, client);
    var a := Refresh(token, client, newToken, delay);
    var f, v := w.past.issued[token].family, Next(w, a);
    ReplayedWorld(w, token, client, newToken, delay, f);
    KilledIsDead(w.rows.grants, w.past, token, f);
    StepInv(w, a);
    RunDead(v, later, f);
    RunInv(v, later);
    DeadIsSilenced(Exec(v, later), f);
  }

  // ---------------------------------------------------------------- tokens and codes are used at most once

  /** A token that was drawn before and is in neither table of live credentials. */
  ghost predicate SpentToken(w: World, token: Token) {
    token in w.used && token !in w.rows.grants
  }

  lemma {:induction false} RunSpent(w: World, run: seq<Action>, token: Token)
    requires Inv(w) && LegalRun(w, run) && SpentToken(w, token)
    ensures SpentToken(Exec(w, run), token)
    decreases |run|
  {
    if run != [] {
      var v := Next(w, run[0]);
      StepInv(w, run[0]);
      StepMonotone(w, run[0]);
      if token in v.rows.grants { GrantOrigin(w, run[0], token); }
      RunSpent(v, run[1..], token);
    }
  }

  /**
   * Of all refreshes with one token in one run, whoever sends them and however they interleave, at most one rotates it.
   */
  lemma AtMostOneRotation(w0: World, run: seq<Action>, w: World, token: Token, client: string, newToken: Token,
                          delay: nat, later: seq<Action>, anyClient: string)
    requires Reached(w0, run, w) && Legal(w, Refresh(token, client, newToken, delay))
    requires OutcomeAt(w, token, client).Rotated?
    requires LegalRun(Next(w, Refresh(token, client, newToken, delay)), later)
    ensures !OutcomeAt(Exec(Next(w, Refresh(token, client, newToken, delay)), later), token, anyClient).Rotated?
  {
    ReachedInv(w0, run, w);
    var a := Refresh(token, client, newToken, delay);
    StepInv(w, a);
    var v := Next(w, a);
    assert SpentToken(v, token) by { RotationSpends(w, token, client, newToken, delay); }
    RunSpent(v, later, token);
    SpentIsNotRotated(Exec(v, later), token, anyClient);
  }

  lemma SpentIsNotRotated(w: World, token: Token, client: string)
    requires SpentToken(w, token)
    ensures !OutcomeAt(w, token, client).Rotated?
  {
  }

  lemma RotationSpends(w: World, token: Token, client: string, newToken: Token, delay: nat)
    requires Inv(w) && OutcomeAt(w, token, client).Rotated? && newToken !in w.used
    ensures SpentToken(DoRefresh(w, token, client, newToken, delay), token)
  {
    RotatedWorld(w, token, client, newToken, delay);
    assert GrantOk(token, w.rows.grants[token], w.past);
  }

  // ---------------------------------------------------------------- keys that are never accepted again

  /** The key was issued, and either its row is revoked or gone, or it is a connector key without a grant. */
  ghost predicate Retired(w: World, k: nat) {
    k < w.rows.nextKey
    && ((k in w.rows.keys ==> w.rows.keys[k].revoked.Some?)
        || (!Granted(w, k) && (k in w.rows.keys ==> w.rows.keys[k].owned)))
  }

  /** A key row that exists after a step existed before it, unless it is the one just created. */
  lemma KeyOrigin(w: World, a: Action, k: nat)
    requires Inv(w) && k in Next(w, a).rows.keys && k < w.rows.nextKey
    ensures k in w.rows.keys && SameIssue(w.rows.keys[k], Next(w, a).rows.keys[k])
  {
    if a.MintGrant? {
      if a.req in w.requests && w.requests[a.req].Checked? { MintedWorld(w, a.req, a.newToken); }
    } else if a.Refresh? {
      RefreshedKey(w, a.token, a.client, a.newToken, a.delay, k);
    } else if a.Restart? {
      if a.issuer.Some? { ReconciledGrants(w.rows, a.issuer.value, w.now); }
    } else if !a.Keys? {
      SameKeys(w, a);
    }
  }

  lemma SameKeys(w: World, a: Action)
    requires !a.MintGrant? && !a.Refresh? && !a.Restart? && !a.Keys?
    ensures Next(w, a).rows.keys == w.rows.keys
  {
    match a
    case Authorize(req, asked, challengeMethod, targets, registered, operator, mode) =>
      assert DoAuthorize(w, req, asked, challengeMethod, targets, registered, operator, mode).rows.keys == w.rows.keys;
    case SelectInvite(req) => assert DoSelectInvite(w, req).rows.keys == w.rows.keys;
    case ClaimInvite(req, later) => assert DoClaimInvite(w, req, later).rows.keys == w.rows.keys;
    case StoreCode(req, h) => assert DoStoreCode(w, req, h).rows.keys == w.rows.keys;
    case TakeCode(req, h, ask) => assert DoTakeCode(w, req, h, ask).rows.keys == w.rows.keys;
    case CheckCode(req) => assert DoCheckCode(w, req).rows.keys == w.rows.keys;
    case _ =>
  }

  lemma RefreshedKey(w: World, token: Token, client: string, h: Token, delay: nat, k: nat)
    requires k in DoRefresh(w, token, client, h, delay).rows.keys && k < w.rows.nextKey
    ensures k in w.rows.keys && SameIssue(w.rows.keys[k], DoRefresh(w, token, client, h, delay).rows.keys[k])
  {
    if OutcomeAt(w, token, client).Rotated? { RotatedWorld(w, token, client, h, delay); }
  }

  lemma StepRetired(w: World, a: Action, k: nat)
    requires Inv(w) && Legal(w, a) && Retired(w, k)
    ensures Retired(Next(w, a), k)
  {
    var v := Next(w, a);
    StepMonotone(w, a);
    if k in v.rows.keys { KeyOrigin(w, a, k); }
    if !Granted(w, k) {
      forall h | h in v.rows.grants ensures v.rows.grants[h].key != k { GrantOrigin(w, a, h); }
    }
  }

  lemma {:induction false} RunRetired(w: World, run: seq<Action>, k: nat)
    requires Inv(w) && LegalRun(w, run) && Retired(w, k)
    ensures Retired(Exec(w, run), k)
    decreases |run|
  {
    if run != [] {
      StepInv(w, run[0]);
      StepRetired(w, run[0], k);
      RunRetired(Next(w, run[0]), run[1..], k);
    }
  }

  /**
   * No resurrection: a key that is revoked, deleted, or whose grant was rotated away is not accepted after any
   * later run, including enable steps and restarts.
   */
  lemma NoResurrection(w0: World, run: seq<Action>, w: World, k: nat, later: seq<Action>)
    requires Reached(w0, run, w) && Retired(w, k) && LegalRun(w, later)
    ensures !Accepted(Exec(w, later), k)
  {
    ReachedInv(w0, run, w);
    RunRetired(w, later, k);
    var v := Exec(w, later);
    if k in v.rows.keys && v.rows.keys[k].owned && Bound(v, k) { assert Granted(v, k); }
  }

  /** Rotation retires the old key; administrative revocation and deletion retire any issued key. */
  lemma WhatRetires(w0: World, run: seq<Action>, w: World, a: Action, k: nat)
    requires Reached(w0, run, w) && Legal(w, a) && k < w.rows.nextKey
    requires a == Keys(Revoke(k)) || a == Keys(Delete(k))
             || (a.Refresh? && OutcomeAt(w, a.token, a.client) == Rotated(k))
    ensures Retired(Next(w, a), k)
  {
    ReachedInv(w0, run, w);
    if a.Refresh? {
      RotationRetires(w, a.token, a.client, a.newToken, a.delay, k);
    } else {
      RemovalRetires(w, a.op, k);
    }
  }

  lemma RemovalRetires(w: World, op: KeyOp, k: nat)
    requires k < w.rows.nextKey && (op == Revoke(k) || op == Delete(k))
    ensures Retired(DoKeys(w, op), k)
  {
  }

  lemma RotationRetires(w: World, token: Token, client: string, h: Token, delay: nat, k: nat)
    requires Inv(w) && h !in w.used && k < w.rows.nextKey && OutcomeAt(w, token, client) == Rotated(k)
    ensures Retired(DoRefresh(w, token, client, h, delay), k)
  {
    RotatedWorld(w, token, client, h, delay);
    var v := DoRefresh(w, token, client, h, delay);
    OwnedByFamily(w, token);
    forall j | j in v.rows.grants ensures v.rows.grants[j].key != k {
      if j != h { OneGrantPerKey(w, token, j); }
    }
  }

  lemma OwnedByFamily(w: World, h: Token)
    requires Inv(w) && h in w.rows.grants
    ensures w.rows.grants[h].key < w.rows.nextKey
    ensures w.rows.grants[h].key in w.rows.keys ==> w.rows.keys[w.rows.grants[h].key].owned
  {
    assert GrantOk(h, w.rows.grants[h], w.past);
    if w.rows.grants[h].key in w.rows.keys {
      assert KeyOk(w.rows.grants[h].key, w.rows.keys[w.rows.grants[h].key], w.past);
    }
  }

  /** A key has at most one grant, the UNIQUE constraint of the table. */
  lemma OneGrantPerKey(w: World, h: Token, j: Token)
    requires Inv(w) && h in w.rows.grants && j in w.rows.grants && h != j
    ensures w.rows.grants[h].key != w.rows.grants[j].key
  {
    assert GrantOk(h, w.rows.grants[h], w.past) && GrantOk(j, w.rows.grants[j], w.past);
  }

  /** At most one key of a family is accepted at any time. */
  lemma OneAcceptedKeyPerFamily(w0: World, run: seq<Action>, w: World, k: nat, l: nat)
    requires Reached(w0, run, w) && Accepted(w, k) && Accepted(w, l)
    requires k in w.past.kin && l in w.past.kin && w.past.kin[k] == w.past.kin[l]
    ensures k == l
  {
    ReachedInv(w0, run, w);
    var h := KinIsGranted(w, k);
    var j := KinIsGranted(w, l);
  }

  /** An accepted key of a family is the key of the family's one grant. */
  lemma KinIsGranted(w: World, k: nat) returns (h: Token)
    requires Inv(w) && Accepted(w, k) && k in w.past.kin
    ensures h in w.rows.grants && w.rows.grants[h].key == k && FamilyOf(w.rows.grants[h]) == w.past.kin[k]
    ensures forall j :: j in w.rows.grants && FamilyOf(w.rows.grants[j]) == w.past.kin[k] ==> j == h
  {
    assert KeyOk(k, w.rows.keys[k], w.past);
    h :| h in w.rows.grants && w.rows.grants[h].key == k && w.rows.grants[h].resource == w.audience.value;
    assert GrantOk(h, w.rows.grants[h], w.past);
  }

  // ---------------------------------------------------------------- lifetime and scope of a family

  /**
   * The lifetime of a family is absolute: every grant and history row of it carries the expiry fixed when it was
   * founded (14 days after the exchange), and nothing is rotated after it.
   */
  lemma FamilyLifetime(w0: World, run: seq<Action>, w: World, f: Family)
    requires Reached(w0, run, w) && f in w.past.families
    ensures forall h :: h in w.rows.grants && FamilyOf(w.rows.grants[h]) == f ==>
              w.rows.grants[h].refreshExpires == w.past.families[f].expires
    ensures forall h :: h in w.rows.history && w.rows.history[h].family == f ==>
              w.rows.history[h].expires == w.past.families[f].expires
    ensures w.past.families[f].born.Some? ==> w.past.families[f].expires == w.past.families[f].born.value + REFRESH_LIFE
    ensures w.past.families[f].expires < w.now ==>
              forall h, c :: h in w.past.issued && w.past.issued[h].family == f ==> !OutcomeAt(w, h, c).Rotated?
  {
    ReachedInv(w0, run, w);
    assert LineageOk(w.past.families[f], w.now);
    FamilyExpiry(w.rows.grants, w.rows.history, w.past, w.now, f);
    if w.past.families[f].expires < w.now {
      forall h, c | h in w.past.issued && w.past.issued[h].family == f ensures !OutcomeAt(w, h, c).Rotated? {
        NotRotatedLate(w, h, c, f);
      }
    }
  }

  lemma FamilyExpiry(grants: map<Token, Grant>, history: map<Token, Retained>, past: Past, now: Instant,
                     f: Family)
    requires GrantsOk(grants, past) && HistoryOk(history, grants, past, now) && f in past.families
    ensures forall h :: h in grants && FamilyOf(grants[h]) == f ==> grants[h].refreshExpires == past.families[f].expires
    ensures forall h :: h in history && history[h].family == f ==> history[h].expires == past.families[f].expires
  {
    assert forall h :: h in grants ==> GrantOk(h, grants[h], past);
    assert forall h :: h in history ==> RetainedOk(h, history[h], past);
  }

  lemma NotRotatedLate(w: World, h: Token, client: string, f: Family)
    requires GrantsOk(w.rows.grants, w.past) && h in w.past.issued && w.past.issued[h].family == f
    requires f in w.past.families && w.past.families[f].expires < w.now
    ensures !OutcomeAt(w, h, client).Rotated?
  {
    if h in w.rows.grants { assert GrantOk(h, w.rows.grants[h], w.past); }
  }

  /** Lineages never change, over any run. */
  lemma {:induction false} RunFamilies(w: World, run: seq<Action>, f: Family)
    requires Inv(w) && LegalRun(w, run) && f in w.past.families
    ensures f in Exec(w, run).past.families && Exec(w, run).past.families[f] == w.past.families[f]
    decreases |run|
  {
    if run != [] {
      StepInv(w, run[0]);
      StepFamilies(w, run[0], f);
      RunFamilies(Next(w, run[0]), run[1..], f);
    }
  }

  /**
   * Scope provenance: a grant carries the scope its family was founded with; configuration permission only ever
   * comes from an operator; and a family without offline access has a single key.
   */
  lemma ScopeProvenance(w0: World, run: seq<Action>, w: World, h: Token)
    requires Reached(w0, run, w) && h in w.rows.grants
    ensures var g, f := w.rows.grants[h], FamilyOf(w.rows.grants[h]);
      && f in w.past.families && g.scope == w.past.families[f].scope
      && (g.scope.config ==>
            w.past.families[f].via == Operator && (g.key in w.rows.keys ==> w.rows.keys[g.key].via == Operator))
      && (!g.scope.offline ==> forall k :: k in w.past.kin && w.past.kin[k] == f ==> k == g.key)
  {
    ReachedInv(w0, run, w);
    var g := w.rows.grants[h];
    assert GrantOk(h, g, w.past);
    assert LineageOk(w.past.families[FamilyOf(g)], w.now);
    if g.key in w.rows.keys { assert KeyOk(g.key, w.rows.keys[g.key], w.past); }
  }

  // ---------------------------------------------------------------- all or nothing

  /** Something of the family is left to be taken away: an enabled key or a grant. */
  ghost predicate Alive(t: Tables, f: Family) {
    (exists k :: k in FamilyKeys(t.history, f) && k in t.keys && t.keys[k].enabled)
    || (exists h :: h in t.grants && t.grants[h].family == f)
  }

  /** A refresh changes a table if and only if it is a success, or a replay of a family of which something is left. */
  lemma RefreshChangesExactly(w: World, token: Token, client: string, newToken: Token, delay: nat)
    requires Inv(w) && newToken !in w.used
    ensures var outcome := OutcomeAt(w, token, client);
      DoRefresh(w, token, client, newToken, delay).rows != w.rows
      <==> outcome.Rotated? || (outcome.Replayed? && Alive(w.rows, outcome.family))
  {
    match OutcomeAt(w, token, client)
    case Refused =>
    case Rotated(_) =>
      RotationSpends(w, token, client, newToken, delay);
      RotatedWorld(w, token, client, newToken, delay);
    case Replayed(f) =>
      ReplayedWorld(w, token, client, newToken, delay, f);
      KillingChanges(w.rows, f);
  }

  lemma KillingChanges(t: Tables, f: Family)
    ensures Killed(t, f) != t <==> Alive(t, f)
  {
    var u := Killed(t, f);
    if Alive(t, f) {
      if k :| k in FamilyKeys(t.history, f) && k in t.keys && t.keys[k].enabled {
        assert !u.keys[k].enabled;
      } else {
        var h :| h in t.grants && t.grants[h].family == f;
        assert h !in u.grants;
      }
    } else {
      assert u.keys == t.keys && u.grants == t.grants;
    }
  }

  /**
   * A key, a grant and a history row that belong together and are the only difference between two states of the tables.
   */
  ghost predicate OneIssued(t: Tables, u: Tables, h: Token) {
    h in u.grants && h !in t.grants && u.grants - {h} == t.grants - {h}
    && h in u.history && h !in t.history && u.history - {h} == t.history
    && u.grants[h].key !in t.keys && u.keys.Keys == t.keys.Keys + {u.grants[h].key}
    && u.history[h] == Retained(u.grants[h].family, u.grants[h].key, u.grants[h].refreshExpires)
    && u.keys[u.grants[h].key].enabled && u.keys[u.grants[h].key].owned
  }

  /**
   * An exchange that founds a family inserts its key, grant and history row together, for a request whose client,
   * redirect URI and PKCE proof match the code it presented.
   */
  lemma ExchangeIsComplete(w0: World, run: seq<Action>, w: World, a: Action, f: Family)
    requires Reached(w0, run, w) && Legal(w, a) && f !in w.past.families && f in Next(w, a).past.families
    ensures a.MintGrant? && f == Rooted(a.newToken) && OneIssued(w.rows, Next(w, a).rows, a.newToken)
    ensures w.rows.grants == Next(w, a).rows.grants - {a.newToken}
    ensures a.req in w.requests && w.requests[a.req].Checked?
    ensures var p := w.requests[a.req];
      p.code.challenge == p.ask.proof && p.code.client == p.ask.client && p.code.redirect == p.ask.redirect
      && Next(w, a).past.families[f].code == Some(p.token) && Next(w, a).rows.grants[a.newToken].client == p.code.client
      && Next(w, a).rows.grants[a.newToken].scope == p.code.scope
  {
    ReachedInv(w0, run, w);
    FoundingStep(w, a, f);
    assert PlaceOk(w.requests[a.req], w.used, w.audience);
    MintIsOneIssued(w, a.req, a.newToken);
  }

  lemma MintIsOneIssued(w: World, req: nat, h: Token)
    requires Inv(w) && h !in w.used && req in w.requests && w.requests[req].Checked?
    ensures var v, p := DoMintGrant(w, req, h), w.requests[req];
      OneIssued(w.rows, v.rows, h) && w.rows.grants == v.rows.grants - {h}
      && v.past.families[Rooted(h)].code == Some(p.token) && v.rows.grants[h].client == p.code.client
         && v.rows.grants[h].scope == p.code.scope
  {
    MintedWorld(w, req, h);
    FreshRows(w, h);
    var v := DoMintGrant(w, req, h);
    OneIssuedRows(w.rows, v.rows, h, w.rows.nextKey);
  }

  lemma OneIssuedRows(t: Tables, u: Tables, h: Token, k: nat)
    requires h !in t.grants && h !in t.history && k !in t.keys && h in u.grants && h in u.history && k in u.keys
    requires u.grants == t.grants[h := u.grants[h]] && u.history == t.history[h := u.history[h]]
             && u.keys == t.keys[k := u.keys[k]]
    requires u.grants[h].key == k && u.keys[k].enabled && u.keys[k].owned
    requires u.history[h] == Retained(u.grants[h].family, k, u.grants[h].refreshExpires)
    ensures OneIssued(t, u, h)
    ensures t.grants == u.grants - {h}
  {
  }

  /** Only the second transaction of an exchange founds a family. */
  lemma FoundingStep(w: World, a: Action, f: Family)
    requires f !in w.past.families && f in Next(w, a).past.families
    ensures a.MintGrant? && f == Rooted(a.newToken) && a.req in w.requests && w.requests[a.req].Checked?
  {
    if a.MintGrant? {
      if a.req in w.requests && w.requests[a.req].Checked? { MintedWorld(w, a.req, a.newToken); }
    } else if !a.Refresh? && !a.Restart? {
      OtherSteps(w, a);
    }
  }

  lemma FreshRows(w: World, h: Token)
    requires Inv(w) && h !in w.used
    ensures h !in w.rows.grants && h !in w.rows.history && w.rows.nextKey !in w.rows.keys
  {
    assert forall j :: j in w.rows.grants ==> GrantOk(j, w.rows.grants[j], w.past);
    assert forall j :: j in w.rows.history ==> RetainedOk(j, w.rows.history[j], w.past);
  }

  /** A presented code is gone after the first transaction, whatever the checks that follow decide. */
  lemma {:induction false} CodeIsSpent(w: World, run: seq<Action>, token: Token)
    requires Inv(w) && LegalRun(w, run) && token in w.used && token !in w.rows.codes
    ensures token !in Exec(w, run).rows.codes
    decreases |run|
  {
    if run != [] {
      StepInv(w, run[0]);
      StepMonotone(w, run[0]);
      CodeOrigin(w, run[0], token);
      CodeIsSpent(Next(w, run[0]), run[1..], token);
    }
  }

  lemma CodeOrigin(w: World, a: Action, token: Token)
    requires Inv(w) && Legal(w, a) && token in w.used && token !in w.rows.codes
    ensures token !in Next(w, a).rows.codes
  {
    if a.MintGrant? {
      if a.req in w.requests && w.requests[a.req].Checked? { MintedWorld(w, a.req, a.newToken); }
    } else if a.Refresh? {
      if OutcomeAt(w, a.token, a.client).Rotated? { RotatedWorld(w, a.token, a.client, a.newToken, a.delay); }
    } else if a.Restart? {
      if a.issuer.Some? { ReconciledGrants(w.rows, a.issuer.value, w.now); }
    }
  }
}
