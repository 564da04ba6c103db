/** The startup purge of oauth_refresh_history cannot be observed through the token endpoint. */
module TokenPurge {
  import opened Prelude
  import opened TokenTables
  import opened TokenProtocol
  import opened TokenInvariant
  import opened TokenTheorems

  /** The history rows that have not expired. */
  function Live(history: map<Token, Retained>, now: Instant): map<Token, Retained> {
    map h | h in history && now <= history[h].expires :: history[h]
  }

  function WithHistory(w: World, history: map<Token, Retained>): World {
    w.(rows := w.rows.(history := history))
  }

  /** Two states that differ in nothing but expired history rows. */
  ghost predicate Similar(w: World, u: World) {
    u == WithHistory(w, u.rows.history) && Live(u.rows.history, w.now) == Live(w.rows.history, w.now)
  }

  lemma LiveRow(a: map<Token, Retained>, b: map<Token, Retained>, now: Instant, h: Token)
    requires Live(a, now) == Live(b, now)
    ensures h in a && now <= a[h].expires ==> h in b && b[h] == a[h]
    ensures h in b && now <= b[h].expires ==> h in a && a[h] == b[h]
  {
    if h in a && now <= a[h].expires { assert h in Live(a, now); }
    if h in b && now <= b[h].expires { assert h in Live(b, now); }
  }

  lemma LiveLater(a: map<Token, Retained>, b: map<Token, Retained>, now: Instant, later: Instant)
    requires Live(a, now) == Live(b, now) && now <= later
    ensures Live(a, later) == Live(b, later)
  {
    forall h ensures h in Live(a, later) <==> h in Live(b, later) { LiveRow(a, b, now, h); }
    forall h | h in Live(a, later) ensures Live(a, later)[h] == Live(b, later)[h] { LiveRow(a, b, now, h); }
  }

  /** The endpoint answers alike in similar states. */
  lemma SameAnswer(w: World, u: World, token: Token, client: string)
    requires Similar(w, u)
    ensures OutcomeAt(u, token, client) == OutcomeAt(w, token, client)
  {
    LiveRow(w.rows.history, u.rows.history, w.now, token);
  }

  /** The rows of an unexpired family are live, so a replay disables the same keys in both states. */
  lemma SameFamilyKeys(w: World, u: World, f: Family)
    requires Inv(w) && Inv(u) && Similar(w, u) && f in w.past.families && w.now <= w.past.families[f].expires
    ensures FamilyKeys(u.rows.history, f) == FamilyKeys(w.rows.history, f)
  {
    forall h | h in w.rows.history && w.rows.history[h].family == f
      ensures h in u.rows.history && u.rows.history[h] == w.rows.history[h]
    {
      assert RetainedOk(h, w.rows.history[h], w.past);
      LiveRow(w.rows.history, u.rows.history, w.now, h);
    }
    forall h | h in u.rows.history && u.rows.history[h].family == f
      ensures h in w.rows.history && w.rows.history[h] == u.rows.history[h]
    {
      assert RetainedOk(h, u.rows.history[h], u.past);
      LiveRow(w.rows.history, u.rows.history, w.now, h);
    }
  }

  lemma AddedRow(a: map<Token, Retained>, b: map<Token, Retained>, now: Instant, h: Token, row: Retained)
    requires Live(a, now) == Live(b, now)
    ensures Live(a[h := row], now) == Live(b[h := row], now)
  {
    var a', b' := a[h := row], b[h := row];
    forall j ensures j in Live(a', now) <==> j in Live(b', now) { LiveRow(a, b, now, j); }
    forall j | j in Live(a', now) ensures Live(a', now)[j] == Live(b', now)[j] { LiveRow(a, b, now, j); }
  }

  lemma MintSimilar(w: World, u: World, req: nat, h: Token)
    requires Similar(w, u)
    ensures Similar(DoMintGrant(w, req, h), DoMintGrant(u, req, h))
  {
    if req in w.requests && w.requests[req].Checked? {
      MintedWorld(w, req, h);
      MintedWorld(u, req, h);
      var v, x := DoMintGrant(w, req, h), DoMintGrant(u, req, h);
      AddedRow(w.rows.history, u.rows.history, w.now, h, v.rows.history[h]);
      assert x == WithHistory(v, x.rows.history);
    }
  }

  lemma RotateSimilar(w: World, u: World, token: Token, client: string, h: Token, delay: nat)
    requires Similar(w, u) && OutcomeAt(w, token, client).Rotated? && OutcomeAt(u, token, client).Rotated?
    ensures Similar(DoRefresh(w, token, client, h, delay), DoRefresh(u, token, client, h, delay))
  {
    var v, x := DoRefresh(w, token, client, h, delay), DoRefresh(u, token, client, h, delay);
    RotatedWorld(w, token, client, h, delay);
    RotatedWorld(u, token, client, h, delay);
    LiveLater(w.rows.history, u.rows.history, w.now, w.now + delay);
    AddedRow(w.rows.history, u.rows.history, w.now + delay, h, v.rows.history[h]);
    assert x == WithHistory(v, x.rows.history);
  }

  lemma KilledSimilar(w: World, u: World, delay: nat, f: Family)
    requires Similar(w, u) && FamilyKeys(u.rows.history, f) == FamilyKeys(w.rows.history, f)
    ensures Similar(w.(rows := Killed(w.rows, f), now := w.now + delay),
                    u.(rows := Killed(u.rows, f), now := u.now + delay))
  {
    LiveLater(w.rows.history, u.rows.history, w.now, w.now + delay);
  }

  lemma ReplaySimilar(w: World, u: World, token: Token, client: string, h: Token, delay: nat, f: Family)
    requires Inv(w) && Inv(u) && Similar(w, u)
    requires OutcomeAt(w, token, client) == Replayed(f) && OutcomeAt(u, token, client) == Replayed(f)
    ensures Similar(DoRefresh(w, token, client, h, delay), DoRefresh(u, token, client, h, delay))
  {
    ReplayedFamily(w, token, client, f);
    ReplayedWorld(w, token, client, h, delay, f);
    ReplayedWorld(u, token, client, h, delay, f);
    SameFamilyKeys(w, u, f);
    KilledSimilar(w, u, delay, f);
  }

  lemma RefusedSimilar(w: World, u: World, token: Token, client: string, h: Token, delay: nat)
    requires Similar(w, u) && OutcomeAt(w, token, client).Refused? && OutcomeAt(u, token, client).Refused?
    ensures Similar(DoRefresh(w, token, client, h, delay), DoRefresh(u, token, client, h, delay))
  {
    LiveLater(w.rows.history, u.rows.history, w.now, w.now + delay);
  }

  lemma RefreshSimilar(w: World, u: World, token: Token, client: string, h: Token, delay: nat)
    requires Inv(w) && Inv(u) && Similar(w, u)
    ensures Similar(DoRefresh(w, token, client, h, delay), DoRefresh(u, token, client, h, delay))
  {
    SameAnswer(w, u, token, client);
    match OutcomeAt(w, token, client)
    case Refused => RefusedSimilar(w, u, token, client, h, delay);
    case Replayed(f) => ReplaySimilar(w, u, token, client, h, delay, f);
    case Rotated(_) => RotateSimilar(w, u, token, client, h, delay);
  }

  /** Reconciliation may backfill a row in one state that the other still holds; both have the expiry of the family. */
  lemma RestartRow(w: World, u: World, resource: string, h: Token)
    requires Inv(w) && Inv(u) && Similar(w, u)
    requires h in Reconciled(w.rows, resource, w.now).history
             && w.now <= Reconciled(w.rows, resource, w.now).history[h].expires
    ensures h in Reconciled(u.rows, resource, w.now).history
    ensures Reconciled(u.rows, resource, w.now).history[h] == Reconciled(w.rows, resource, w.now).history[h]
  {
    ReconciledHistory(w.rows, resource, w.now, h);
    ReconciledHistory(u.rows, resource, w.now, h);
    LiveRow(w.rows.history, u.rows.history, w.now, h);
    var row := Reconciled(w.rows, resource, w.now).history[h];
    assert !Purged(row, w.now) by { if Purged(row, w.now) { PurgedIsExpired(row, w.now); } }
    if h in w.rows.grants { assert GrantOk(h, w.rows.grants[h], w.past); }
    if h in u.rows.history { assert RetainedOk(h, u.rows.history[h], u.past); }
    if h in w.rows.history { assert RetainedOk(h, w.rows.history[h], w.past); }
  }

  lemma RestartSimilar(w: World, u: World, issuer: Option<string>)
    requires Inv(w) && Inv(u) && Similar(w, u)
    ensures Similar(DoRestart(w, issuer), DoRestart(u, issuer))
  {
    if issuer.Some? {
      ReconciledTables(w.rows, issuer.value, w.now);
      ReconciledTables(u.rows, issuer.value, w.now);
      RestartLive(w, u, issuer.value);
    }
  }

  lemma RestartLive(w: World, u: World, resource: string)
    requires Inv(w) && Inv(u) && Similar(w, u)
    ensures Live(Reconciled(u.rows, resource, w.now).history,
                 w.now) == Live(Reconciled(w.rows, resource, w.now).history, w.now)
  {
    var a, b := Reconciled(w.rows, resource, w.now).history, Reconciled(u.rows, resource, w.now).history;
    forall h | h in a && w.now <= a[h].expires ensures h in b && b[h] == a[h] { RestartRow(w, u, resource, h); }
    forall h | h in b && w.now <= b[h].expires ensures h in a && a[h] == b[h] { RestartRow(u, w, resource, h); }
    SameLive(a, b, w.now);
  }

  lemma SameLive(a: map<Token, Retained>, b: map<Token, Retained>, now: Instant)
    requires forall h :: h in a && now <= a[h].expires ==> h in b && b[h] == a[h]
    requires forall h :: h in b && now <= b[h].expires ==> h in a && a[h] == b[h]
    ensures Live(b, now) == Live(a, now)
  {
  }

  lemma OtherSimilar(w: World, u: World, a: Action)
    requires Similar(w, u) && !a.MintGrant? && !a.Refresh? && !a.Restart?
    ensures Similar(Next(w, a), Next(u, a))
  {
    match a
    case Authorize(req, asked, challengeMethod, targets, registered, operator, mode) =>
      assert Similar(DoAuthorize(w, req, asked, challengeMethod, targets, registered, operator, mode),
                     DoAuthorize(u, req, asked, challengeMethod, targets, registered, operator, mode));
    case SelectInvite(req) => assert Similar(DoSelectInvite(w, req), DoSelectInvite(u, req));
    case ClaimInvite(req, later) => assert Similar(DoClaimInvite(w, req, later), DoClaimInvite(u, req, later));
    case StoreCode(req, h) => assert Similar(DoStoreCode(w, req, h), DoStoreCode(u, req, h));
    case TakeCode(req, h, ask) => assert Similar(DoTakeCode(w, req, h, ask), DoTakeCode(u, req, h, ask));
    case CheckCode(req) => assert Similar(DoCheckCode(w, req), DoCheckCode(u, req));
    case Keys(op) => assert Similar(DoKeys(w, op), DoKeys(u, op));
    case Wait(time) => LiveLater(w.rows.history, u.rows.history, w.now, w.now + time);
    case _ =>
  }

  lemma StepSimilar(w: World, u: World, a: Action)
    requires Inv(w) && Inv(u) && Similar(w, u)
    ensures Similar(Next(w, a), Next(u, a))
  {
    match a
    case MintGrant(req, h) => MintSimilar(w, u, req, h);
    case Refresh(token, client, h, delay) => RefreshSimilar(w, u, token, client, h, delay);
    case Restart(issuer) => RestartSimilar(w, u, issuer);
    case _ => OtherSimilar(w, u, a);
  }

  lemma {:induction false} RunSimilar(w: World, u: World, run: seq<Action>)
    requires Inv(w) && Inv(u) && Similar(w, u) && LegalRun(w, run)
    ensures LegalRun(u, run) && Similar(Exec(w, run), Exec(u, run))
    decreases |run|
  {
    if run != [] {
      assert Legal(u, run[0]);
      StepInv(w, run[0]);
      StepInv(u, run[0]);
      StepSimilar(w, u, run[0]);
      RunSimilar(Next(w, run[0]), Next(u, run[0]), run[1..]);
    }
  }

  function PurgedNow(w: World): World {
    w.(rows := RunStatement(w.rows, PurgeHistory, "", w.now))
  }

  lemma PurgeSimilar(w: World)
    requires Inv(w)
    ensures Inv(PurgedNow(w)) && Similar(w, PurgedNow(w))
  {
    PurgedOk(w.rows.history, w.rows.grants, w.past, w.now);
    assert PurgedNow(w) == WithHistory(w, HistoryPurged(w.rows.history, w.now));
  }

  lemma PurgedOk(history: map<Token, Retained>, grants: map<Token, Grant>, past: Past, now: Instant)
    requires HistoryOk(history, grants, past, now)
    ensures HistoryOk(HistoryPurged(history, now), grants, past, now)
    ensures Live(HistoryPurged(history, now), now) == Live(history, now)
  {
    var left := HistoryPurged(history, now);
    forall h | h in history && Purged(history[h], now) ensures history[h].expires < now {
      PurgedIsExpired(history[h], now);
    }
    forall h | h in past.issued && h !in left ensures Forgettable(h, grants, past, now) {
      if h in history { assert RetainedOk(h, history[h], past); } else { assert Forgettable(h, grants, past, now); }
    }
  }

  /**
   * Whenever the purge is run, every later refresh, after any run of the service, is answered as if it had not
   * been, and the two databases never differ in anything but expired history rows.
   */
  lemma PurgeIsInvisible(w0: World, run: seq<Action>, w: World, later: seq<Action>, token: Token, client: string)
    requires Reached(w0, run, w) && LegalRun(w, later)
    ensures LegalRun(PurgedNow(w), later)
    ensures var v, u := Exec(w, later), Exec(PurgedNow(w), later);
      OutcomeAt(u, token, client) == OutcomeAt(v, token, client) && u == WithHistory(v, u.rows.history)
  {
    ReachedInv(w0, run, w);
    PurgeSimilar(w);
    RunSimilar(w, PurgedNow(w), later);
    SameAnswer(Exec(w, later), Exec(PurgedNow(w), later), token, client);
  }
}
