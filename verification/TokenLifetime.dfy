/** How long the keys of a refresh family are accepted: when the bound of two hours after its expiry holds. */
module TokenLifetime {
  import opened Prelude
  import opened TokenTables
  import opened TokenProtocol
  import opened Scopes
  import opened TokenInvariant
  import opened TokenTheorems

  // ---------------------------------------------------------------- the term of a grant

  /** A grant that appears in a step was issued by an exchange or a rotation, for two hours from its last reading. */
  lemma NewTerm(w: World, a: Action, h: Token)
    requires Inv(w) && Legal(w, a) && h in Next(w, a).rows.grants && h !in w.rows.grants
    ensures var v, g := Next(w, a), Next(w, a).rows.grants[h];
      && g.key == w.rows.nextKey && g.created == v.now && g.accessExpires == g.created + ACCESS_LIFE
      && (g.created <= g.refreshExpires || Rotates(w, a))
      && (Rotates(w, a) ==> a.token in w.rows.grants && g.refreshExpires == w.rows.grants[a.token].refreshExpires
                            && v.now == w.now + a.delay && w.now <= g.refreshExpires)
  {
    GrantOrigin(w, a, h);
    if a.MintGrant? { MintedWorld(w, a.req, a.newToken); } else { RotatedTerm(w, a, h); }
  }

  lemma RotatedTerm(w: World, a: Action, h: Token)
    requires Rotates(w, a) && h in Next(w, a).rows.grants && h !in w.rows.grants
    ensures var v, g := Next(w, a), Next(w, a).rows.grants[h];
      && g.key == w.rows.nextKey && g.created == v.now && g.accessExpires == g.created + ACCESS_LIFE
      && a.token in w.rows.grants && g.refreshExpires == w.rows.grants[a.token].refreshExpires
      && v.now == w.now + a.delay && w.now <= g.refreshExpires
  {
    RotatedWorld(w, a.token, a.client, a.newToken, a.delay);
  }

  predicate Rotates(w: World, a: Action) {
    a.Refresh? && OutcomeAt(w, a.token, a.client).Rotated?
  }

  /** Keys from n on were minted by the service: their grants run for two hours; keys before it are legacy keys. */
  ghost predicate TermsOk(w: World, n: nat) {
    && n <= w.rows.nextKey
    && (forall h :: h in w.rows.grants && n <= w.rows.grants[h].key ==>
          w.rows.grants[h].accessExpires == w.rows.grants[h].created + ACCESS_LIFE)
    && (forall k :: k in w.past.kin && k < n ==> w.past.kin[k].Legacy?)
  }

  lemma StartTerms(w: World)
    requires Start(w)
    ensures TermsOk(w, w.rows.nextKey)
  {
    StartInv(w);
    forall h | h in w.rows.grants ensures w.rows.grants[h].key < w.rows.nextKey { OwnedByFamily(w, h); }
    forall k | k in w.past.kin ensures w.past.kin[k].Legacy? { StartKin(w, k); }
  }

  lemma StepTerms(w: World, a: Action, n: nat)
    requires Inv(w) && Legal(w, a) && TermsOk(w, n)
    ensures TermsOk(Next(w, a), n)
  {
    var v := Next(w, a);
    StepMonotone(w, a);
    forall h | h in v.rows.grants && n <= v.rows.grants[h].key
      ensures v.rows.grants[h].accessExpires == v.rows.grants[h].created + ACCESS_LIFE
    {
      if h in w.rows.grants { SameGrant(w, a, h); } else { NewTerm(w, a, h); }
    }
    forall k | k in v.past.kin && k < n ensures v.past.kin[k].Legacy? { StepKin(w, a, k); }
  }

  /** A token that was there before still stands for the same key and the same term. */
  lemma SameGrant(w: World, a: Action, h: Token)
    requires Inv(w) && Legal(w, a) && h in Next(w, a).rows.grants && h in w.rows.grants
    ensures var g := Next(w, a).rows.grants[h]; g.key == w.rows.grants[h].key && SameTerm(g, w.rows.grants[h])
  {
    assert GrantOk(h, w.rows.grants[h], w.past);
    GrantOrigin(w, a, h);
  }

  /** A key that was minted before a step belongs to the same family after it. */
  lemma StepKin(w: World, a: Action, k: nat)
    requires Inv(w) && Legal(w, a) && k in Next(w, a).past.kin && k < w.rows.nextKey
    ensures k in w.past.kin && Next(w, a).past.kin[k] == w.past.kin[k]
  {
    if a.MintGrant? {
      if a.req in w.requests && w.requests[a.req].Checked? { MintedWorld(w, a.req, a.newToken); }
    } else if a.Refresh? {
      if Rotates(w, a) { RotatedWorld(w, a.token, a.client, a.newToken, a.delay); }
    } else if !a.Restart? {
      OtherSteps(w, a);
    }
  }

  lemma {:induction false} RunTerms(w: World, run: seq<Action>, n: nat)
    requires Inv(w) && LegalRun(w, run) && TermsOk(w, n)
    ensures TermsOk(Exec(w, run), n)
    decreases |run|
  {
    if run != [] {
      StepInv(w, run[0]);
      StepTerms(w, run[0], n);
      RunTerms(Next(w, run[0]), run[1..], n);
    }
  }

  /** A grant of an already issued key was there from the beginning, with the same key and term. */
  lemma {:induction false} GrantStays(w: World, run: seq<Action>, h: Token)
    requires Inv(w) && LegalRun(w, run)
    requires h in Exec(w, run).rows.grants && Exec(w, run).rows.grants[h].key < w.rows.nextKey
    ensures h in w.rows.grants
    ensures var g := Exec(w, run).rows.grants[h]; g.key == w.rows.grants[h].key && SameTerm(g, w.rows.grants[h])
    decreases |run|
  {
    if run != [] {
      var a := run[0];
      StepInv(w, a);
      StepMonotone(w, a);
      GrantStays(Next(w, a), run[1..], h);
      if h in w.rows.grants { SameGrant(w, a, h); } else { NewTerm(w, a, h); }
    }
  }

  // ---------------------------------------------------------------- when the bound of two hours fails

  /** After the run the key is accepted although more than two hours have passed since the instant e. */
  ghost predicate AcceptedLate(w: World, later: seq<Action>, k: nat, e: Instant) {
    LegalRun(w, later) && e + ACCESS_LIFE < Exec(w, later).now && Accepted(Exec(w, later), k)
  }

  lemma ReachedTerms(w0: World, run: seq<Action>, w: World)
    requires Reached(w0, run, w)
    ensures Inv(w) && TermsOk(w, w0.rows.nextKey)
  {
    StartInv(w0);
    StartTerms(w0);
    RunInv(w0, run);
    RunTerms(w0, run, w0.rows.nextKey);
  }

  /** The grant of an accepted key, and what is known of its term. */
  lemma GrantOfKey(w: World, n: nat, k: nat) returns (h: Token)
    requires Inv(w) && TermsOk(w, n) && Accepted(w, k) && k in w.past.kin
    ensures h in w.rows.grants && w.rows.grants[h].key == k && w.now <= w.rows.grants[h].accessExpires
    ensures w.past.kin[k] in w.past.families
    ensures w.past.families[w.past.kin[k]].expires == w.rows.grants[h].refreshExpires
    ensures n <= k ==> w.rows.grants[h].accessExpires == w.rows.grants[h].created + ACCESS_LIFE
    ensures w.past.kin[k].Rooted? ==> n <= k
    ensures w.rows.keys[k].owned && k < w.rows.nextKey
  {
    assert KeyOk(k, w.rows.keys[k], w.past);
    h :| h in w.rows.grants && w.rows.grants[h].key == k && w.now <= w.rows.grants[h].accessExpires;
    assert GrantOk(h, w.rows.grants[h], w.past);
  }

  /** An accepted key stays accepted, when nothing else happens, until its access expires. */
  lemma AcceptedToTheEnd(w: World, h: Token, k: nat)
    requires Accepted(w, k) && h in w.rows.grants && w.rows.grants[h].key == k
    requires w.now <= w.rows.grants[h].accessExpires
    requires w.rows.grants[h].refreshExpires + ACCESS_LIFE < w.rows.grants[h].accessExpires
    ensures exists later :: AcceptedLate(w, later, k, w.rows.grants[h].refreshExpires)
  {
    var t := w.rows.grants[h].accessExpires;
    var a := Wait(t - w.now);
    ExecOne(w, a);
    StillAccepted(w, h, k, t);
    assert AcceptedLate(w, [a], k, w.rows.grants[h].refreshExpires);
  }

  lemma StillAccepted(w: World, h: Token, k: nat, t: Instant)
    requires Accepted(w, k) && h in w.rows.grants && w.rows.grants[h].key == k && t <= w.rows.grants[h].accessExpires
    ensures Accepted(w.(now := t), k)
  {
  }

  lemma ExecOne(w: World, a: Action)
    requires Legal(w, a)
    ensures LegalRun(w, [a]) && Exec(w, [a]) == Next(w, a)
  {
    assert [a][1..] == [];
  }

  /** A key row of an already issued key was there from the beginning, with the same owner. */
  lemma {:induction false} OwnerStays(w: World, run: seq<Action>, k: nat)
    requires Inv(w) && LegalRun(w, run) && k in Exec(w, run).rows.keys && k < w.rows.nextKey
    ensures k in w.rows.keys && w.rows.keys[k].owned == Exec(w, run).rows.keys[k].owned
    decreases |run|
  {
    if run != [] {
      StepInv(w, run[0]);
      StepMonotone(w, run[0]);
      OwnerStays(Next(w, run[0]), run[1..], k);
      KeyOrigin(w, run[0], k);
    }
  }

  /** No run moves the access expiry of a grant. */
  lemma AcceptedByThen(w: World, later: seq<Action>, h: Token, k: nat)
    requires Inv(w) && LegalRun(w, later) && k in w.rows.keys && w.rows.keys[k].owned && k < w.rows.nextKey
    requires h in w.rows.grants && w.rows.grants[h].key == k && Accepted(Exec(w, later), k)
    ensures Exec(w, later).now <= w.rows.grants[h].accessExpires
  {
    var v := Exec(w, later);
    OwnerStays(w, later, k);
    var j :| j in v.rows.grants && v.rows.grants[j].key == k && v.now <= v.rows.grants[j].accessExpires;
    GrantStays(w, later, j);
    if j != h { OneGrantPerKey(w, h, j); }
  }

  lemma LateByTheColumn(w: World, h: Token, k: nat)
    requires Inv(w) && Accepted(w, k) && w.rows.keys[k].owned && k < w.rows.nextKey
    requires h in w.rows.grants && w.rows.grants[h].key == k && w.now <= w.rows.grants[h].accessExpires
    ensures var g := w.rows.grants[h];
      (exists later :: AcceptedLate(w, later, k, g.refreshExpires))
      <==> g.refreshExpires + ACCESS_LIFE < g.accessExpires
  {
    var g := w.rows.grants[h];
    if g.refreshExpires + ACCESS_LIFE < g.accessExpires { AcceptedToTheEnd(w, h, k); }
    if exists later :: AcceptedLate(w, later, k, g.refreshExpires) {
      var later :| AcceptedLate(w, later, k, g.refreshExpires);
      AcceptedByThen(w, later, h, k);
    }
  }

  /**
   * Whether an accepted key of a family can, by any run of the service, still be accepted when more than two hours
   * have passed since the expiry of the family, is decided by two columns of its grant: for a key minted by the
   * service exactly when the grant was created after it expires, for a legacy key exactly when the previous release
   * has given it an access expiry that late.
   */
  lemma LifetimeExactly(w0: World, run: seq<Action>, w: World, k: nat) returns (h: Token)
    requires Reached(w0, run, w) && Accepted(w, k) && k in w.past.kin
    ensures h in w.rows.grants && w.rows.grants[h].key == k && w.now <= w.rows.grants[h].accessExpires
    ensures w.past.kin[k] in w.past.families
    ensures w.past.families[w.past.kin[k]].expires == w.rows.grants[h].refreshExpires
    ensures w0.rows.nextKey <= k ==> w.rows.grants[h].accessExpires == w.rows.grants[h].created + ACCESS_LIFE
    ensures w.past.kin[k].Rooted? ==> w0.rows.nextKey <= k
    ensures var g := w.rows.grants[h];
      (exists later :: AcceptedLate(w, later, k, g.refreshExpires))
      <==> if w0.rows.nextKey <= k then g.refreshExpires < g.created
           else g.refreshExpires + ACCESS_LIFE < g.accessExpires
  {
    ReachedTerms(w0, run, w);
    h := GrantOfKey(w, w0.rows.nextKey, k);
    LateByTheColumn(w, h, k);
  }

  // ---------------------------------------------------------------- which refreshes make it fail

  /**
   * The i-th step of the run is a refresh that mints the key and straddles the expiry of its family: its expiry check
   * still passes, its last clock reading falls after the expiry.
   */
  ghost predicate Straddles(w0: World, run: seq<Action>, i: nat, k: nat)
    requires i < |run|
  {
    var u, a := Exec(w0, run[..i]), run[i];
    && Rotates(u, a) && k == u.rows.nextKey && a.token in u.rows.grants
    && u.now <= u.rows.grants[a.token].refreshExpires < u.now + a.delay
  }

  /** A run is its first i steps, the next one, and the rest. */
  lemma Parts(w0: World, run: seq<Action>, i: nat)
    requires LegalRun(w0, run) && i < |run|
    ensures var u := Exec(w0, run[..i]);
      && LegalRun(w0, run[..i]) && Legal(u, run[i])
      && LegalRun(Next(u, run[i]), run[i + 1..]) && Exec(Next(u, run[i]), run[i + 1..]) == Exec(w0, run)
  {
    assert run == run[..i] + run[i..];
    ExecConcat(w0, run[..i], run[i..]);
    assert run[i..][1..] == run[i + 1..];
  }

  lemma Prefix(w0: World, run: seq<Action>, i: nat)
    requires Start(w0) && LegalRun(w0, run) && i < |run|
    ensures Inv(Exec(w0, run[..i])) && Inv(Next(Exec(w0, run[..i]), run[i]))
    ensures w0.rows.nextKey <= Exec(w0, run[..i]).rows.nextKey
  {
    Parts(w0, run, i);
    ReachedTerms(w0, run[..i], Exec(w0, run[..i]));
    StepInv(Exec(w0, run[..i]), run[i]);
  }

  /** A grant created after it expires was issued by a refresh that straddled the expiry. */
  lemma {:induction false} LateIsStraddled(w0: World, run: seq<Action>, h: Token) returns (i: nat)
    requires Start(w0) && LegalRun(w0, run) && h in Exec(w0, run).rows.grants
    requires var g := Exec(w0, run).rows.grants[h]; w0.rows.nextKey <= g.key && g.refreshExpires < g.created
    ensures i < |run| && Straddles(w0, run, i, Exec(w0, run).rows.grants[h].key)
    decreases |run|
  {
    if run == [] {
      StartInv(w0);
      OwnedByFamily(w0, h);
      assert false;
    }
    var n := |run| - 1;
    Parts(w0, run, n);
    Prefix(w0, run, n);
    var u, p := Exec(w0, run[..n]), run[..n];
    assert run[n + 1..] == [];
    LastStep(u, run[n], Exec(w0, run), h);
    if h in u.rows.grants {
      i := LateIsStraddled(w0, p, h);
      SameStep(w0, p, run, i, Exec(w0, run).rows.grants[h].key);
    } else {
      i := n;
    }
  }

  lemma SameStep(w0: World, p: seq<Action>, run: seq<Action>, i: nat, k: nat)
    requires i < |p| < |run| && p == run[..|p|] && Straddles(w0, p, i, k)
    ensures Straddles(w0, run, i, k)
  {
    assert p[..i] == run[..i];
  }

  /** A late grant was there before the step, or the step is the refresh that straddles the expiry. */
  lemma LastStep(u: World, a: Action, v: World, h: Token)
    requires Inv(u) && Legal(u, a) && v == Next(u, a) && h in v.rows.grants
    requires v.rows.grants[h].refreshExpires < v.rows.grants[h].created
    ensures h in u.rows.grants ==>
              u.rows.grants[h].key == v.rows.grants[h].key && SameTerm(v.rows.grants[h], u.rows.grants[h])
    ensures h !in u.rows.grants ==>
              && Rotates(u, a) && v.rows.grants[h].key == u.rows.nextKey && a.token in u.rows.grants
              && u.now <= u.rows.grants[a.token].refreshExpires < u.now + a.delay
  {
    if h in u.rows.grants { SameGrant(u, a, h); } else { NewTerm(u, a, h); }
  }

  /** And a refresh that straddles the expiry leaves its key with such a grant, for as long as it has one. */
  lemma StraddledIsLate(w0: World, run: seq<Action>, i: nat, h: Token)
    requires Start(w0) && LegalRun(w0, run) && i < |run| && h in Exec(w0, run).rows.grants
    requires Straddles(w0, run, i, Exec(w0, run).rows.grants[h].key)
    ensures w0.rows.nextKey <= Exec(w0, run).rows.grants[h].key
    ensures var g := Exec(w0, run).rows.grants[h];
      g.refreshExpires < g.created && g.created == Exec(w0, run[..i]).now + run[i].delay
  {
    Parts(w0, run, i);
    Prefix(w0, run, i);
    var u, a := Exec(w0, run[..i]), run[i];
    RotatedWorld(u, a.token, a.client, a.newToken, a.delay);
    GrantStays(Next(u, a), run[i + 1..], h);
    if h != a.newToken { OneGrantPerKey(Next(u, a), h, a.newToken); }
  }

  /**
   * The lifetime of a family's keys, exactly: a key the service has minted can, by some later run, be accepted more
   * than two hours after the expiry of its family if and only if it was minted by a refresh that straddled the expiry,
   * and then until two hours after the last clock reading of that refresh. No other refresh matters, however long.
   */
  lemma OutlivesExactly(w0: World, run: seq<Action>, w: World, k: nat)
    requires Reached(w0, run, w) && Accepted(w, k) && k in w.past.kin && w0.rows.nextKey <= k
    ensures w.past.kin[k] in w.past.families
    ensures (exists later :: AcceptedLate(w, later, k, w.past.families[w.past.kin[k]].expires))
            <==> exists i :: 0 <= i < |run| && Straddles(w0, run, i, k)
    ensures forall i :: 0 <= i < |run| && Straddles(w0, run, i, k) ==>
              w.now <= Exec(w0, run[..i]).now + run[i].delay + ACCESS_LIFE
  {
    var h := LifetimeExactly(w0, run, w, k);
    if w.rows.grants[h].refreshExpires < w.rows.grants[h].created { var i := LateIsStraddled(w0, run, h); }
    forall i | 0 <= i < |run| && Straddles(w0, run, i, k)
      ensures w.rows.grants[h].refreshExpires < w.rows.grants[h].created
      ensures w.rows.grants[h].created == Exec(w0, run[..i]).now + run[i].delay
    {
      StraddledIsLate(w0, run, i, h);
    }
  }

  // ---------------------------------------------------------------- such a run

  lemma {:induction false} Longer(used: set<Token>) returns (n: nat)
    ensures forall h :: h in used ==> |h| < n
    decreases |used|
  {
    if used == {} {
      n := 0;
    } else {
      var h :| h in used;
      var m := Longer(used - {h});
      n := if m <= |h| then |h| + 1 else m;
    }
  }

  /** There is always another token to draw. */
  lemma Draw(used: set<Token>) returns (h: Token)
    ensures h !in used && h != ""
  {
    var n := Longer(used);
    h := seq(n + 1, _ => 'x');
  }

  lemma Extend(w0: World, run: seq<Action>, a: Action)
    requires LegalRun(w0, run) && Legal(Exec(w0, run), a)
    ensures LegalRun(w0, run + [a]) && Exec(w0, run + [a]) == Next(Exec(w0, run), a)
  {
    ExecConcat(w0, run, [a]);
    ExecOne(Exec(w0, run), a);
  }

  const FORM: Form := Form("client", "uri", "proof", Scope(true, false), "", "")
  const ASK: Ask := Ask("client", "uri", "proof")

  function CodeFor(t: Instant): Code {
    Code("client", "uri", "proof", "S256", t + CODE_LIFE, Operator, None, "r", Scope(true, false))
  }

  const SIGN_IN: Action := Authorize(0, Some(FORM), "S256", [], true, true, Off)

  lemma SignsIn(w: World)
    requires w.audience == Some("r")
    ensures Next(w, SIGN_IN) == w.(requests := w.requests[0 := Approved(FORM, Operator, None)])
  {
  }

  lemma StoresCode(w: World, h: Token)
    requires w.audience == Some("r") && w.requests == map[0 := Approved(FORM, Operator, None)]
    ensures var v := Next(w, StoreCode(0, h));
      && v.now == w.now && v.audience == w.audience && 1 !in v.requests
      && h in v.rows.codes && v.rows.codes[h] == CodeFor(w.now)
  {
  }

  lemma Restarts(w: World)
    ensures var v := Next(w, Restart(Some("r")));
      v.now == w.now && v.audience == Some("r") && v.requests == map[] && v.used == w.used
  {
  }

  /** The service is started and the operator authorizes a client. */
  lemma Authorization(w0: World) returns (run: seq<Action>, h: Token)
    ensures LegalRun(w0, run)
    ensures var w := Exec(w0, run);
      && w.now == w0.now && w.audience == Some("r") && 1 !in w.requests
      && h in w.rows.codes && w.rows.codes[h] == CodeFor(w0.now)
  {
    h := Draw(w0.used);
    run := [Restart(Some("r"))];
    ExecOne(w0, run[0]);
    Restarts(w0);
    var w := Exec(w0, run);
    SignsIn(w);
    Extend(w0, run, SIGN_IN);
    run := run + [SIGN_IN];
    var u := Exec(w0, run);
    assert u.requests == map[0 := Approved(FORM, Operator, None)] && u.used == w0.used && u.now == w0.now;
    StoresCode(u, h);
    Extend(w0, run, StoreCode(0, h));
    run := run + [StoreCode(0, h)];
  }

  /** The client exchanges its code; the grant and its key are fresh. */
  lemma Exchange(w0: World, run: seq<Action>, h: Token) returns (run': seq<Action>, token: Token)
    requires LegalRun(w0, run)
    requires var w := Exec(w0, run);
      w.audience == Some("r") && 1 !in w.requests && h in w.rows.codes && w.rows.codes[h] == CodeFor(w.now)
    ensures LegalRun(w0, run') && Issues(Exec(w0, run'), token, Exec(w0, run).now)
  {
    var w := Exec(w0, run);
    run' := run + [TakeCode(1, h, ASK)];
    Extend(w0, run, TakeCode(1, h, ASK));
    Extend(w0, run', CheckCode(1));
    run' := run' + [CheckCode(1)];
    var u := Exec(w0, run');
    assert 1 in u.requests && u.requests[1] == Checked(h, CodeFor(w.now), ASK);
    token := Draw(u.used);
    Extend(w0, run', MintGrant(1, token));
    run' := run' + [MintGrant(1, token)];
    MintedWorld(u, 1, token);
  }

  /** The token stands for a usable grant with offline access that was issued at t. */
  ghost predicate Issues(w: World, token: Token, t: Instant) {
    && w.audience == Some("r") && token != "" && token in w.rows.grants && w.now == t
    && Rooted(token) in w.past.families && w.past.families[Rooted(token)].expires == t + REFRESH_LIFE
    && var g := w.rows.grants[token];
       && g.resource == "r" && g.scope.offline && g.refreshExpires == t + REFRESH_LIFE && g.family == Rooted(token)
       && KeyUsable(w.rows, g.key)
  }

  /** A refresh that starts at the very expiry leaves a key that is accepted until two hours after its end. */
  lemma LastRefresh(w: World, token: Token, h: Token, delay: nat, t: Instant)
    requires Issues(w.(now := t), token, t) && w.now == t + REFRESH_LIFE
    ensures var v, k := DoRefresh(w, token, "", h, delay), w.rows.nextKey;
      && v.now == t + REFRESH_LIFE + delay && k in v.past.kin && v.past.kin[k] == Rooted(token)
      && v.past.families == w.past.families && Accepted(v.(now := v.now + ACCESS_LIFE), k)
  {
    assert OutcomeAt(w, token, "").Rotated?;
    RotatedWorld(w, token, "", h, delay);
    var v := DoRefresh(w, token, "", h, delay);
    FreshAccepted(v, v.now + ACCESS_LIFE, w.rows.nextKey, h);
  }

  lemma FreshAccepted(v: World, later: Instant, k: nat, h: Token)
    requires KeyUsable(v.rows, k) && h in v.rows.grants && v.rows.grants[h].key == k
    requires v.audience == Some(v.rows.grants[h].resource) && later <= v.rows.grants[h].accessExpires
    ensures Accepted(v.(now := later), k)
  {
  }

  /**
   * It happens in every installation: from every migrated database there is a run (an authorization by the operator,
   * its exchange, a refresh that starts at the expiry of the family and takes the given time, two hours) after which
   * a key of the family is accepted although two hours and that time have passed since the expiry.
   */
  lemma LateAcceptance(w0: World, delay: nat) returns (run: seq<Action>, w: World, k: nat)
    requires Start(w0) && delay > 0
    ensures Reached(w0, run, w) && Accepted(w, k) && k in w.past.kin && w.past.kin[k] in w.past.families
    ensures w.past.families[w.past.kin[k]].expires + ACCESS_LIFE + delay == w.now
    ensures AcceptedLate(w, [], k, w.past.families[w.past.kin[k]].expires)
  {
    var h, token;
    run, h := Authorization(w0);
    run, token := Exchange(w0, run, h);
    var t := Exec(w0, run).now;
    Extend(w0, run, Wait(REFRESH_LIFE));
    run := run + [Wait(REFRESH_LIFE)];
    var u := Exec(w0, run);
    var next := Draw(u.used);
    k := u.rows.nextKey;
    LastRefresh(u, token, next, delay, t);
    Extend(w0, run, Refresh(token, "", next, delay));
    run := run + [Refresh(token, "", next, delay)];
    Extend(w0, run, Wait(ACCESS_LIFE));
    run := run + [Wait(ACCESS_LIFE)];
    w := Exec(w0, run);
  }
}
