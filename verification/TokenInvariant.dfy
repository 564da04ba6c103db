/** Every step of the token service keeps the invariant, from any database the previous release can leave. */
module TokenInvariant {
  import opened Prelude
  import opened TokenTables
  import opened TokenProtocol
  import opened Scopes

  // ---------------------------------------------------------------- starting states

  /** The refresh tokens a migrated database knows: those of its grants and those the migration kept in the history. */
  function LegacyTokens(rows: Tables): set<Token> {
    rows.grants.Keys + rows.history.Keys
  }

  function LegacyKey(rows: Tables, h: Token): nat
    requires h in LegacyTokens(rows)
  {
    if h in rows.grants then rows.grants[h].key else rows.history[h].key
  }

  /** Every grant of the previous release had a key of its own, the UNIQUE constraint of the table. */
  ghost predicate DistinctKeys(rows: Tables) {
    forall h, j :: h in LegacyTokens(rows) && j in LegacyTokens(rows) && LegacyKey(rows, h) == LegacyKey(rows, j) ==>
      h == j
  }

  /**
   * A grant of the previous release: no audience, the default scope; named after its key and retained in the history
   * when it was there at the migration, without a family when the old process issued it afterwards.
   */
  ghost predicate LegacyGrant(h: Token, g: Grant, rows: Tables) {
    && g.resource == "" && g.scope == Scope(true, false)
    && (if h in rows.history then g.family == Legacy(g.key)
        && rows.history[h] == Retained(g.family, g.key, g.refreshExpires)
        else g.family == Unbound)
  }

  /** A history row of the migration; its grant may be gone again, consumed by the old process. */
  ghost predicate LegacyRetained(row: Retained) {
    row.family == Legacy(row.key)
  }

  /**
   * A migrated database before the first start of the service. It may hold grants and codes of the previous release,
   * those that the migration named and retained and those that the old process issued or consumed between the
   * migration and its end.
   */
  ghost predicate Migrated(rows: Tables, used: set<Token>) {
    && LegacyTokens(rows) + rows.codes.Keys <= used
    && (forall h :: h in rows.grants ==> LegacyGrant(h, rows.grants[h], rows))
    && (forall h :: h in rows.history ==> LegacyRetained(rows.history[h]))
    && (forall h :: h in LegacyTokens(rows) ==> LegacyIssued(rows, LegacyKey(rows, h)))
    && DistinctKeys(rows)
    && (forall h :: h in rows.codes ==> rows.codes[h].scope == Scope(true, false))
    && (forall k :: k in rows.keys ==> k < rows.nextKey && (!rows.keys[k].owned ==> rows.keys[k].ref.None?))
  }

  /** A key that was minted for a grant. */
  predicate LegacyIssued(rows: Tables, k: nat) {
    k < rows.nextKey && (k in rows.keys ==> rows.keys[k].owned)
  }

  /** What a legacy grant, or the history row left of it, says about its family. */
  function LegacyLineage(rows: Tables, h: Token): Lineage
    requires h in LegacyTokens(rows)
  {
    var k := LegacyKey(rows, h);
    Lineage(if h in rows.grants then rows.grants[h].client else "",
            if k in rows.keys then rows.keys[k].via else Operator, if k in rows.keys then rows.keys[k].ref else None,
            Scope(true, false), if h in rows.grants then rows.grants[h].refreshExpires else rows.history[h].expires,
            None, None, h !in rows.grants)
  }

  /** A token of the previous release is a family of its own. */
  ghost predicate LegacyRow(h: Token, rows: Tables, past: Past)
    requires h in LegacyTokens(rows)
  {
    var k := LegacyKey(rows, h);
    && Legacy(k) in past.families && past.families[Legacy(k)] == LegacyLineage(rows, h)
    && k in past.kin && past.kin[k] == Legacy(k) && h in past.issued && past.issued[h] == Issue(Legacy(k), k)
  }

  /** The history variables hold exactly the families of the legacy tokens. */
  ghost predicate LegacyPast(rows: Tables, past: Past) {
    && (forall h :: h in LegacyTokens(rows) ==> LegacyRow(h, rows, past))
    && (forall h :: h in past.issued ==> h in LegacyTokens(rows))
    && (forall k :: k in past.kin ==> exists h :: h in LegacyTokens(rows) && LegacyKey(rows, h) == k)
    && (forall f :: f in past.families ==> f.Legacy? && f.key in past.kin)
  }

  /** The service before its first start: nothing in flight, OAuth not yet configured, on a migrated database. */
  ghost predicate Start(w: World) {
    && w.requests == map[] && w.audience == None
    && Migrated(w.rows, w.used) && LegacyPast(w.rows, w.past)
  }

  /** The keys of the legacy tokens. */
  function LegacyKeys(rows: Tables): set<nat> {
    set h | h in LegacyTokens(rows) :: LegacyKey(rows, h)
  }

  function LegacyFamilies(rows: Tables): (r: map<Family, Lineage>)
    requires DistinctKeys(rows)
    ensures forall h :: h in LegacyTokens(rows) ==>
              Legacy(LegacyKey(rows, h)) in r && r[Legacy(LegacyKey(rows, h))] == LegacyLineage(rows, h)
    ensures forall f :: f in r ==> f.Legacy? && f.key in LegacyKeys(rows)
  {
    map k | k in LegacyKeys(rows) :: Legacy(k) := LegacyLineage(rows, TokenOfKey(rows, k))
  }

  function TokenOfKey(rows: Tables, k: nat): (h: Token)
    requires DistinctKeys(rows) && k in LegacyKeys(rows)
    ensures h in LegacyTokens(rows) && LegacyKey(rows, h) == k
  {
    var h :| h in LegacyTokens(rows) && LegacyKey(rows, h) == k;
    h
  }

  function LegacyKin(rows: Tables): (r: map<nat, Family>)
    ensures r.Keys == LegacyKeys(rows) && forall k :: k in r ==> r[k] == Legacy(k)
  {
    map k | k in LegacyKeys(rows) :: Legacy(k)
  }

  lemma LegacyPastExists(rows: Tables) returns (past: Past)
    requires DistinctKeys(rows)
    ensures LegacyPast(rows, past)
  {
    past := Past(LegacyFamilies(rows), LegacyKin(rows),
                 map h | h in LegacyTokens(rows) :: Issue(Legacy(LegacyKey(rows, h)), LegacyKey(rows, h)));
    forall h | h in LegacyTokens(rows) ensures LegacyRow(h, rows, past) {
      assert LegacyKey(rows, h) in past.kin;
    }
    forall k | k in past.kin ensures exists h :: h in LegacyTokens(rows) && LegacyKey(rows, h) == k {
      assert k in LegacyKeys(rows);
    }
  }

  /** Every migrated database is the start of a run. */
  lemma StartExists(rows: Tables, used: set<Token>, now: Instant) returns (w: World)
    requires Migrated(rows, used)
    ensures Start(w) && w.rows == rows && w.used == used && w.now == now
  {
    var past := LegacyPastExists(rows);
    w := World(rows, now, None, map[], used, past);
  }

  lemma StartInv(w: World)
    requires Start(w)
    ensures Inv(w)
  {
    StartPast(w);
    StartGrants(w);
    StartHistory(w);
  }

  lemma StartPast(w: World)
    requires Start(w)
    ensures PastOk(w.past, w.used, w.rows.nextKey, w.now) && RootsOk(w.past) && LonersOk(w.past)
            && KeysOk(w.rows.keys, w.past, w.rows.nextKey)
  {
    var p := w.past;
    forall k | k in p.kin
      ensures k < w.rows.nextKey && p.kin[k] == Legacy(k) && Legacy(k) in p.families
              && LineageOk(p.families[Legacy(k)], w.now)
      ensures k in w.rows.keys ==> KeyOk(k, w.rows.keys[k], p)
    {
      StartKin(w, k);
    }
    forall h | h in p.issued
      ensures h in w.used && p.issued[h] == Issue(Legacy(p.issued[h].key), p.issued[h].key) && p.issued[h].key in p.kin
    {
      StartToken(w, h);
    }
    assert forall f :: f in p.families ==> f == Legacy(f.key);
  }

  lemma StartKin(w: World, k: nat)
    requires Start(w) && k in w.past.kin
    ensures k < w.rows.nextKey && w.past.kin[k] == Legacy(k) && Legacy(k) in w.past.families
            && LineageOk(w.past.families[Legacy(k)], w.now)
    ensures k in w.rows.keys ==> KeyOk(k, w.rows.keys[k], w.past)
  {
    var h :| h in LegacyTokens(w.rows) && LegacyKey(w.rows, h) == k;
    assert LegacyRow(h, w.rows, w.past) && LegacyIssued(w.rows, k);
  }

  lemma StartToken(w: World, h: Token)
    requires Start(w) && h in LegacyTokens(w.rows)
    ensures h in w.used && h in w.past.issued && LegacyKey(w.rows, h) in w.past.kin
    ensures w.past.issued[h] == Issue(Legacy(LegacyKey(w.rows, h)), LegacyKey(w.rows, h))
  {
    assert LegacyRow(h, w.rows, w.past);
  }

  lemma StartGrants(w: World)
    requires Start(w)
    ensures GrantsOk(w.rows.grants, w.past) && UnboundOk(w.rows.grants, w.past)
  {
    var g := w.rows.grants;
    forall h | h in g ensures GrantOk(h, g[h], w.past) { StartGrant(w, h); }
    forall h, j | h in g && j in w.past.issued && w.past.issued[j].family == FamilyOf(g[h]) ensures h == j {
      StartGrant(w, h);
      StartToken(w, j);
    }
    assert forall j :: j in g ==> GrantOk(j, g[j], w.past);
  }

  lemma StartGrant(w: World, h: Token)
    requires Start(w) && h in w.rows.grants
    ensures GrantOk(h, w.rows.grants[h], w.past) && FamilyOf(w.rows.grants[h]) == Legacy(LegacyKey(w.rows, h))
  {
    assert LegacyRow(h, w.rows, w.past) && LegacyGrant(h, w.rows.grants[h], w.rows);
  }

  lemma StartHistory(w: World)
    requires Start(w)
    ensures HistoryOk(w.rows.history, w.rows.grants, w.past, w.now)
  {
    forall h | h in w.rows.history ensures RetainedOk(h, w.rows.history[h], w.past) {
      assert LegacyRow(h, w.rows, w.past) && LegacyRetained(w.rows.history[h]);
      if h in w.rows.grants { assert LegacyGrant(h, w.rows.grants[h], w.rows); }
    }
    forall h | h in w.past.issued && h !in w.rows.history ensures Forgettable(h, w.rows.grants, w.past, w.now) {
      assert LegacyGrant(h, w.rows.grants[h], w.rows);
    }
  }

  // ---------------------------------------------------------------- steps that leave the families alone

  lemma KeyStepInv(w: World, keys: map<nat, Key>)
    requires Inv(w)
    requires keys.Keys <= w.rows.keys.Keys
    requires forall k :: k in keys ==>
               keys[k].owned == w.rows.keys[k].owned && keys[k].ref == w.rows.keys[k].ref && keys[k].via == w.rows.keys[k].via
    ensures Inv(w.(rows := w.rows.(keys := keys)))
  {
  }

  lemma KeysInv(w: World, op: KeyOp)
    requires Inv(w)
    ensures Inv(DoKeys(w, op))
  {
    var v := DoKeys(w, op);
    forall k | k in v.rows.keys ensures k < v.rows.nextKey && KeyOk(k, v.rows.keys[k], w.past) {
      if k in w.rows.keys { assert KeyOk(k, w.rows.keys[k], w.past); }
    }
  }

  lemma AuthorizeInv(w: World, req: nat, asked: Option<Form>, challengeMethod: string, targets: seq<string>,
                     registered: bool, operator: bool, mode: Mode)
    requires Inv(w)
    ensures Inv(DoAuthorize(w, req, asked, challengeMethod, targets, registered, operator, mode))
  {
  }

  lemma RedeemInv(w: World, a: Action)
    requires Inv(w) && (a.SelectInvite? || a.ClaimInvite?)
    ensures Inv(Next(w, a))
  {
  }

  lemma StoreCodeInv(w: World, a: Action)
    requires Inv(w) && Legal(w, a) && a.StoreCode?
    ensures Inv(Next(w, a))
  {
  }

  lemma TakeCodeInv(w: World, a: Action)
    requires Inv(w) && Legal(w, a) && (a.TakeCode? || a.CheckCode?)
    ensures Inv(Next(w, a))
  {
  }

  // ---------------------------------------------------------------- exchange and refresh

  /** The history variables after a key k and a token h were issued to family f. */
  function Issued(past: Past, f: Family, k: nat, h: Token): Past {
    Past(past.families, past.kin[k := f], past.issued[h := Issue(f, k)])
  }

  function Founded(past: Past, f: Family, line: Lineage): Past {
    past.(families := past.families[f := line])
  }

  lemma IssuedPast(past: Past, used: set<Token>, next: nat, now: Instant, f: Family, h: Token)
    requires f in past.families && h !in used && PastOk(past, used, next, now)
    ensures PastOk(Issued(past, f, next, h), used + {h}, next + 1, now)
  {
    var p := Issued(past, f, next, h);
    forall k | k in p.kin ensures k < next + 1 && p.kin[k] in p.families { if k != next { assert k in past.kin; } }
    forall j | j in p.issued
      ensures j in used + {h} && p.issued[j].key in p.kin && p.kin[p.issued[j].key] == p.issued[j].family
    {
      if j != h { assert j in past.issued && past.issued[j].key in past.kin; }
    }
  }

  lemma IssuedLoners(past: Past, f: Family, k: nat, h: Token)
    requires LonersOk(past) && k !in past.kin && f in past.families
    requires Offline(past, f) || forall l :: l in past.kin ==> past.kin[l] != f
    ensures LonersOk(Issued(past, f, k, h))
  {
  }

  /** The grants after the one of token h, if any, was replaced by a new one of the same family. */
  lemma IssuedGrants(grants: map<Token, Grant>, past: Past, f: Family, k: nat, h: Token,
                     prior: Token, g: Grant)
    requires (forall j :: j in grants ==> GrantOk(j, grants[j], past) && j != h)
    requires GrantsOk(grants, past) && h !in past.issued
    requires forall j :: j in grants && FamilyOf(grants[j]) == f ==> j == prior
    requires GrantOk(h, g, Issued(past, f, k, h)) && FamilyOf(g) == f
    ensures GrantsOk((grants - {prior})[h := g], Issued(past, f, k, h))
  {
    var after, p := (grants - {prior})[h := g], Issued(past, f, k, h);
    forall j | j in after ensures GrantOk(j, after[j], p) {
      if j != h { assert GrantOk(j, grants[j], past); }
    }
  }

  lemma IssuedHistory(history: map<Token, Retained>, grants: map<Token, Grant>, grants': map<Token, Grant>, past: Past,
                      now: Instant, f: Family, k: nat, h: Token)
    requires HistoryOk(history, grants, past, now) && f in past.families && h !in past.issued
    requires forall j :: j in grants && grants[j].family.Unbound? ==> j in grants' && grants'[j] == grants[j]
    ensures HistoryOk(history[h := Retained(f, k, past.families[f].expires)], grants', Issued(past, f, k, h), now)
  {
    var after, p := history[h := Retained(f, k, past.families[f].expires)], Issued(past, f, k, h);
    forall j | j in after ensures RetainedOk(j, after[j], p) {
      if j != h { assert RetainedOk(j, history[j], past); }
    }
    forall j | j in p.issued && j !in after ensures Forgettable(j, grants', p, now) {
      assert Forgettable(j, grants, past, now);
    }
  }

  lemma IssuedKeys(keys: map<nat, Key>, past: Past, k: nat, f: Family, h: Token, made: Key)
    requires KeysOk(keys, past, k) && f in past.families
    requires made.owned && made.ref == past.families[f].ref && made.via == past.families[f].via
    ensures KeysOk(keys[k := made], Issued(past, f, k, h), k + 1)
  {
    var after, p := keys[k := made], Issued(past, f, k, h);
    forall l | l in after ensures l < k + 1 && KeyOk(l, after[l], p) {
      if l != k { assert KeyOk(l, keys[l], past); }
    }
  }

  /** Founding a family changes nothing for the rows of the others. */
  lemma FoundedRows(w: World, f: Family, line: Lineage)
    requires Inv(w) && f !in w.past.families
    requires LineageOk(line, w.now) && f != Unbound
    ensures var p := Founded(w.past, f, line);
      PastOk(p, w.used, w.rows.nextKey, w.now) && LonersOk(p) && GrantsOk(w.rows.grants, p)
        && HistoryOk(w.rows.history, w.rows.grants, p, w.now)
      && KeysOk(w.rows.keys, p, w.rows.nextKey)
      && (forall l :: l in p.kin ==> p.kin[l] != f)
      && (forall h :: h in w.rows.grants ==> FamilyOf(w.rows.grants[h]) != f)
  {
    var p := Founded(w.past, f, line);
    forall h | h in w.rows.grants ensures GrantOk(h, w.rows.grants[h], p) && FamilyOf(w.rows.grants[h]) != f {
      assert GrantOk(h, w.rows.grants[h], w.past);
    }
    forall h | h in w.rows.history ensures RetainedOk(h, w.rows.history[h], p) {
      assert RetainedOk(h, w.rows.history[h], w.past);
    }
    forall h | h in p.issued && h !in w.rows.history ensures Forgettable(h, w.rows.grants, p, w.now) {
      assert Forgettable(h, w.rows.grants, w.past, w.now);
      assert w.past.issued[h].key in w.past.kin;
    }
    forall k | k in w.rows.keys ensures k < w.rows.nextKey && KeyOk(k, w.rows.keys[k], p) {
      assert KeyOk(k, w.rows.keys[k], w.past);
    }
  }

  /** The world after an exchange, with the family founded first and its key and token issued to it. */
  lemma MintedWorld(w: World, req: nat, h: Token)
    requires req in w.requests && w.requests[req].Checked?
    ensures var p, v, f, k := w.requests[req], DoMintGrant(w, req, h), Rooted(h), w.rows.nextKey;
      var line := BornFrom(p.token, p.code, w.now);
      && v.past == Issued(Founded(w.past, f, line), f, k, h)
      && v.rows == Minted(w.rows, p.code, h, w.now) && v.rows.codes == w.rows.codes
      && v.rows.keys == w.rows.keys[k := NewKey(true, line.via, line.ref, w.now)] && v.rows.nextKey == k + 1
      && v.rows.grants == w.rows.grants[h := Grant(k, line.client, w.now + ACCESS_LIFE, line.expires, w.now,
                                                   p.code.resource, line.scope, f)]
      && v.rows.history == w.rows.history[h := Retained(f, k, line.expires)]
      && v.now == w.now && v.audience == w.audience && v.used == w.used + {h}
         && v.requests == w.requests - {req}
  {
  }

  lemma MintInv(w: World, req: nat, h: Token)
    requires Inv(w) && h !in w.used
    ensures Inv(DoMintGrant(w, req, h))
  {
    if req in w.requests && w.requests[req].Checked? {
      MintedWorld(w, req, h);
      MoreUsed(w, h);
      MintRows(w, req, h);
      var v := DoMintGrant(w, req, h);
      assert CodesOk(v.rows.codes, v.used) && PlacesOk(v.requests, v.used, v.audience);
    }
  }

  lemma MintRows(w: World, req: nat, h: Token)
    requires Inv(w) && h !in w.used && req in w.requests && w.requests[req].Checked?
    ensures var v := DoMintGrant(w, req, h);
      PastOk(v.past, v.used, v.rows.nextKey, v.now) && RootsOk(v.past) && LonersOk(v.past)
        && GrantsOk(v.rows.grants, v.past)
      && UnboundOk(v.rows.grants, v.past) && HistoryOk(v.rows.history, v.rows.grants, v.past, v.now)
         && KeysOk(v.rows.keys, v.past, v.rows.nextKey)
  {
    MintedWorld(w, req, h);
    var v, f, k := DoMintGrant(w, req, h), Rooted(h), w.rows.nextKey;
    var line := BornFrom(w.requests[req].token, w.requests[req].code, w.now);
    assert PlaceOk(w.requests[req], w.used, w.audience);
    FoundedRows(w, f, line);
    MintParts(w, f, k, h, line, w.requests[req].code.resource, v);
    MintUnbound(w, v, f, k, h);
  }

  lemma MintUnbound(w: World, v: World, f: Family, k: nat, h: Token)
    requires PastOk(w.past, w.used, k, w.now) && UnboundOk(w.rows.grants, w.past)
    requires f !in w.past.families && !f.Legacy? && v.past.issued == w.past.issued[h := Issue(f, k)]
    requires (forall j :: j in w.rows.grants ==> FamilyOf(w.rows.grants[j]) != f)
    requires h in v.rows.grants && v.rows.grants[h].family == f && f != Unbound
             && v.rows.grants == w.rows.grants[h := v.rows.grants[h]]
    ensures UnboundOk(v.rows.grants, v.past)
  {
  }

  lemma MintParts(w: World, f: Family, k: nat, h: Token, line: Lineage, resource: string, v: World)
    requires var p := Founded(w.past, f, line);
      && PastOk(p, w.used, k, w.now) && LonersOk(p) && GrantsOk(w.rows.grants, p) && KeysOk(w.rows.keys, p, k)
      && HistoryOk(w.rows.history, w.rows.grants, p, w.now) && RootsOk(w.past)
      && (forall l :: l in p.kin ==> p.kin[l] != f)
      && (forall j :: j in w.rows.grants ==> FamilyOf(w.rows.grants[j]) != f)
      && v.past == Issued(p, f, k, h)
    requires f == Rooted(h) && k == w.rows.nextKey && h !in w.used && v.used == w.used + {h} && v.now == w.now
    requires v.rows.keys == w.rows.keys[k := NewKey(true, line.via, line.ref, w.now)] && v.rows.nextKey == k + 1
    requires v.rows.grants == w.rows.grants[h := Grant(k, line.client, w.now + ACCESS_LIFE, line.expires, w.now,
                                                       resource, line.scope, f)]
    requires v.rows.history == w.rows.history[h := Retained(f, k, line.expires)]
    requires line.expires == w.now + REFRESH_LIFE && !line.over
    ensures PastOk(v.past, v.used, v.rows.nextKey, v.now) && RootsOk(v.past) && LonersOk(v.past)
    ensures GrantsOk(v.rows.grants, v.past)
    ensures HistoryOk(v.rows.history, v.rows.grants, v.past, v.now)
    ensures KeysOk(v.rows.keys, v.past, v.rows.nextKey)
  {
    var p := Founded(w.past, f, line);
    NotGranted(w.rows.grants, p, h);
    IssuedPast(p, w.used, k, w.now, f, h);
    IssuedLoners(p, f, k, h);
    IssuedGrants(w.rows.grants, p, f, k, h, h, v.rows.grants[h]);
    IssuedHistory(w.rows.history, w.rows.grants, v.rows.grants, p, w.now, f, k, h);
    IssuedKeys(w.rows.keys, p, k, f, h, v.rows.keys[k]);
  }

  lemma NotGranted(grants: map<Token, Grant>, past: Past, h: Token)
    requires GrantsOk(grants, past) && h !in past.issued
    ensures h !in grants && grants - {h} == grants
  {
    assert h in grants ==> GrantOk(h, grants[h], past);
  }

  lemma MoreUsed(w: World, h: Token)
    requires Inv(w)
    ensures CodesOk(w.rows.codes, w.used + {h}) && PlacesOk(w.requests, w.used + {h}, w.audience)
  {
    forall r | r in w.requests ensures PlaceOk(w.requests[r], w.used + {h}, w.audience) {
      assert PlaceOk(w.requests[r], w.used, w.audience);
    }
  }

  lemma RotatedWorld(w: World, token: Token, client: string, h: Token, delay: nat)
    requires OutcomeAt(w, token, client).Rotated?
    ensures token in w.rows.grants && KeyUsable(w.rows, w.rows.grants[token].key)
    ensures var g := w.rows.grants[token];
      w.audience == Some(g.resource) && g.scope.offline && w.now <= g.refreshExpires
        && (client == "" || client == g.client)
    ensures var v, g, k := DoRefresh(w, token, client, h, delay), w.rows.grants[token], w.rows.nextKey;
      var prior := w.rows.keys[g.key];
      && v.past == Issued(w.past, g.family, k, h) && v.rows.codes == w.rows.codes
      && v.rows.keys == w.rows.keys[g.key := prior.(enabled := false)][k := NewKey(true, prior.via,
                                                                                   prior.ref, w.now + delay)]
      && v.rows.nextKey == k + 1 && v.rows.invites == w.rows.invites && v.rows.nextInvite == w.rows.nextInvite
      && v.rows.grants == (w.rows.grants - {token})[h := g.(key := k, accessExpires := w.now + delay + ACCESS_LIFE,
                                                            created := w.now + delay)]
      && v.rows.history == w.rows.history[h := Retained(g.family, k, g.refreshExpires)]
      && v.now == w.now + delay && v.audience == w.audience
      && v.used == w.used + {h} && v.requests == w.requests
  {
  }

  /** Issuing a key and a token to a family with offline access keeps the history variables in order. */
  lemma NextIssued(past: Past, used: set<Token>, next: nat, now: Instant, f: Family, h: Token, past': Past,
                   used': set<Token>, later: Instant)
    requires PastOk(past, used, next, now) && RootsOk(past) && LonersOk(past) && h !in used && Offline(past, f)
    requires past' == Issued(past, f, next, h) && used' == used + {h} && now <= later
    ensures PastOk(past', used', next + 1, later) && RootsOk(past') && LonersOk(past')
  {
    assert PastOk(past, used, next, later);
    IssuedPast(past, used, next, later, f, h);
    IssuedLoners(past, f, next, h);
  }

  lemma RotatePast(w: World, token: Token, client: string, h: Token, delay: nat)
    requires OutcomeAt(w, token, client).Rotated? && h !in w.used && w.audience != Some("")
    requires PastOk(w.past, w.used, w.rows.nextKey, w.now) && RootsOk(w.past) && LonersOk(w.past)
    requires GrantOk(token, w.rows.grants[token], w.past)
    ensures var v := DoRefresh(w, token, client, h, delay);
      PastOk(v.past, v.used, v.rows.nextKey, v.now) && RootsOk(v.past) && LonersOk(v.past)
  {
    RotatedWorld(w, token, client, h, delay);
    var v := DoRefresh(w, token, client, h, delay);
    NextIssued(w.past, w.used, w.rows.nextKey, w.now, w.rows.grants[token].family, h, v.past, v.used, v.now);
  }

  lemma RotateGrants(w: World, token: Token, client: string, h: Token, delay: nat)
    requires OutcomeAt(w, token, client).Rotated? && h !in w.past.issued && w.audience != Some("")
    requires GrantsOk(w.rows.grants, w.past) && UnboundOk(w.rows.grants, w.past)
    ensures var v := DoRefresh(w, token, client, h, delay);
      GrantsOk(v.rows.grants, v.past) && UnboundOk(v.rows.grants, v.past)
  {
    RotatedWorld(w, token, client, h, delay);
    var v, g := DoRefresh(w, token, client, h, delay), w.rows.grants[token];
    assert GrantOk(token, g, w.past);
    IssuedGrants(w.rows.grants, w.past, g.family, w.rows.nextKey, h, token, v.rows.grants[h]);
  }

  lemma RotateHistory(w: World, token: Token, client: string, h: Token, delay: nat)
    requires OutcomeAt(w, token, client).Rotated? && h !in w.past.issued && h !in w.rows.grants
             && w.audience != Some("")
    requires GrantOk(token, w.rows.grants[token], w.past)
    requires HistoryOk(w.rows.history, w.rows.grants, w.past, w.now + delay)
    ensures var v := DoRefresh(w, token, client, h, delay); HistoryOk(v.rows.history, v.rows.grants, v.past, v.now)
  {
    RotatedWorld(w, token, client, h, delay);
    var v, g := DoRefresh(w, token, client, h, delay), w.rows.grants[token];
    IssuedHistory(w.rows.history, w.rows.grants, v.rows.grants, w.past, w.now + delay, g.family, w.rows.nextKey, h);
  }

  lemma RotateKeys(w: World, token: Token, client: string, h: Token, delay: nat)
    requires OutcomeAt(w, token, client).Rotated? && w.audience != Some("")
    requires GrantOk(token, w.rows.grants[token], w.past) && w.rows.grants[token].key in w.past.kin
    requires w.past.kin[w.rows.grants[token].key] == FamilyOf(w.rows.grants[token])
    requires KeysOk(w.rows.keys, w.past, w.rows.nextKey)
    ensures var v := DoRefresh(w, token, client, h, delay); KeysOk(v.rows.keys, v.past, v.rows.nextKey)
  {
    RotatedWorld(w, token, client, h, delay);
    var v, g, k := DoRefresh(w, token, client, h, delay), w.rows.grants[token], w.rows.nextKey;
    var prior := w.rows.keys[g.key];
    assert KeyOk(g.key, prior, w.past);
    var keys := w.rows.keys[g.key := prior.(enabled := false)];
    assert KeysOk(keys, w.past, k);
    IssuedKeys(keys, w.past, k, g.family, h, v.rows.keys[k]);
  }

  lemma RotateInv(w: World, token: Token, client: string, h: Token, delay: nat)
    requires Inv(w) && h !in w.used && OutcomeAt(w, token, client).Rotated?
    ensures Inv(DoRefresh(w, token, client, h, delay))
  {
    RotatedWorld(w, token, client, h, delay);
    RotateRows(w, token, client, h, delay);
    MoreUsed(w, h);
  }

  lemma RotateRows(w: World, token: Token, client: string, h: Token, delay: nat)
    requires Inv(w) && h !in w.used && OutcomeAt(w, token, client).Rotated?
    ensures var v := DoRefresh(w, token, client, h, delay);
      PastOk(v.past, v.used, v.rows.nextKey, v.now) && RootsOk(v.past) && LonersOk(v.past)
        && GrantsOk(v.rows.grants, v.past)
      && UnboundOk(v.rows.grants, v.past) && HistoryOk(v.rows.history, v.rows.grants, v.past, v.now)
         && KeysOk(v.rows.keys, v.past, v.rows.nextKey)
  {
    RotatedWorld(w, token, client, h, delay);
    RotateReady(w, token, h, delay);
    RotatePast(w, token, client, h, delay);
    RotateGrants(w, token, client, h, delay);
    RotateHistory(w, token, client, h, delay);
    RotateKeys(w, token, client, h, delay);
  }

  /** What the invariant says about the grant to be rotated and the token to be issued. */
  lemma RotateReady(w: World, token: Token, h: Token, delay: nat)
    requires Inv(w) && h !in w.used && token in w.rows.grants
    ensures GrantOk(token, w.rows.grants[token], w.past) && h !in w.past.issued && h !in w.rows.grants
    ensures w.rows.grants[token].key in w.past.kin
            && w.past.kin[w.rows.grants[token].key] == FamilyOf(w.rows.grants[token])
    ensures HistoryOk(w.rows.history, w.rows.grants, w.past, w.now + delay)
  {
    assert GrantOk(token, w.rows.grants[token], w.past);
    assert h in w.rows.grants ==> GrantOk(h, w.rows.grants[h], w.past);
    WaitInv(w, delay);
  }

  lemma WaitInv(w: World, time: nat)
    requires Inv(w)
    ensures Inv(w.(now := w.now + time))
  {
    forall h | h in w.past.issued && h !in w.rows.history ensures Forgettable(h, w.rows.grants, w.past, w.now + time) {
      assert Forgettable(h, w.rows.grants, w.past, w.now);
    }
  }

  lemma ReplayedWorld(w: World, token: Token, client: string, h: Token, delay: nat, f: Family)
    requires OutcomeAt(w, token, client) == Replayed(f)
    ensures DoRefresh(w, token, client, h, delay) == w.(rows := Killed(w.rows, f), now := w.now + delay)
  {
  }

  lemma ReplayedFamily(w: World, token: Token, client: string, f: Family)
    requires Inv(w) && OutcomeAt(w, token, client) == Replayed(f)
    ensures f in w.past.families && w.now <= w.past.families[f].expires
  {
    assert RetainedOk(token, w.rows.history[token], w.past);
  }

  lemma KilledInv(w: World, f: Family)
    requires Inv(w) && f in w.past.families && w.now <= w.past.families[f].expires
    ensures Inv(w.(rows := Killed(w.rows, f)))
  {
    var grants := WithoutFamily(w.rows.grants, f);
    var keys := Disabled(w.rows.keys, FamilyKeys(w.rows.history, f));
    forall h | h in grants ensures GrantOk(h, grants[h], w.past) {
      assert GrantOk(h, w.rows.grants[h], w.past);
    }
    forall h | h in w.past.issued && h !in w.rows.history ensures Forgettable(h, grants, w.past, w.now) {
      assert Forgettable(h, w.rows.grants, w.past, w.now);
    }
    GrantsStepInv(w, grants);
    KeyStepInv(w.(rows := w.rows.(grants := grants)), keys);
  }

  lemma ReplayInv(w: World, token: Token, client: string, h: Token, delay: nat)
    requires Inv(w) && !OutcomeAt(w, token, client).Rotated?
    ensures Inv(DoRefresh(w, token, client, h, delay))
  {
    var o := OutcomeAt(w, token, client);
    if o.Replayed? {
      ReplayedFamily(w, token, client, o.family);
      ReplayedWorld(w, token, client, h, delay, o.family);
      KilledInv(w, o.family);
      WaitInv(w.(rows := Killed(w.rows, o.family)), delay);
    } else {
      WaitInv(w, delay);
    }
  }

  lemma GrantsStepInv(w: World, grants: map<Token, Grant>)
    requires Inv(w) && GrantsOk(grants, w.past) && UnboundOk(grants, w.past)
    requires forall h :: h in w.past.issued && h !in w.rows.history ==> Forgettable(h, grants, w.past, w.now)
    ensures Inv(w.(rows := w.rows.(grants := grants)))
  {
  }

  // ---------------------------------------------------------------- restart

  function BoundCode(c: Code, resource: string): Code {
    if c.resource == "" then c.(resource := resource) else c
  }

  function BoundGrant(g: Grant, keys: map<nat, Key>, resource: string): Grant {
    g.(resource := if g.resource == "" && Owned(keys, g.key) then resource else g.resource, family := FamilyOf(g))
  }

  function Backfilled(g: Grant): Retained {
    Retained(FamilyOf(g), g.key, g.refreshExpires)
  }

  lemma ReconciledTables(t: Tables, resource: string, now: Instant)
    ensures var grants := GrantsNamed(GrantsWithResource(t.grants, t.keys, resource));
      Reconciled(t, resource, now) == t.(codes := CodesWithResource(t.codes, resource), grants := grants,
                                         history := HistoryPurged(HistoryFilled(t.history, grants), now))
  {
  }

  lemma CodesTied(codes: map<Token, Code>, resource: string)
    ensures var r := CodesWithResource(codes, resource);
      r.Keys == codes.Keys && forall h :: h in codes ==> r[h] == BoundCode(codes[h], resource)
  {
  }

  /** The codes and grants after the first three statements. */
  lemma ReconciledGrants(t: Tables, resource: string, now: Instant)
    ensures var u := Reconciled(t, resource, now);
      && u.keys == t.keys && u.nextKey == t.nextKey && u.invites == t.invites && u.nextInvite == t.nextInvite
      && u.codes.Keys == t.codes.Keys && u.grants.Keys == t.grants.Keys
      && (forall h :: h in t.codes ==> u.codes[h] == BoundCode(t.codes[h], resource))
      && (forall h :: h in t.grants ==> u.grants[h] == BoundGrant(t.grants[h], t.keys, resource))
  {
    ReconciledTables(t, resource, now);
    CodesTied(t.codes, resource);
    NamedAndBound(t.grants, t.keys, resource);
  }

  lemma NamedAndBound(grants: map<Token, Grant>, keys: map<nat, Key>, resource: string)
    ensures var r := GrantsNamed(GrantsWithResource(grants, keys, resource));
      r.Keys == grants.Keys && forall h :: h in grants ==> r[h] == BoundGrant(grants[h], keys, resource)
  {
  }

  /** The history after the last two: old rows, then rows for the remaining grants, without the purged ones. */
  lemma ReconciledHistory(t: Tables, resource: string, now: Instant, h: Token)
    ensures var u := Reconciled(t, resource, now);
      if h in t.history then (h in u.history <==> !Purged(t.history[h], now))
         && (h in u.history ==> u.history[h] == t.history[h])
      else if h in t.grants then (h in u.history <==> !Purged(Backfilled(t.grants[h]), now))
        && (h in u.history ==> u.history[h] == Backfilled(t.grants[h]))
      else h !in u.history
  {
    var named := GrantsNamed(GrantsWithResource(t.grants, t.keys, resource));
    ReconciledTables(t, resource, now);
    NamedAndBound(t.grants, t.keys, resource);
    FilledAndPurged(t.history, named, now, h);
  }

  lemma FilledAndPurged(history: map<Token, Retained>, grants: map<Token, Grant>, now: Instant, h: Token)
    ensures var r := HistoryPurged(HistoryFilled(history, grants), now);
      if h in history then (h in r <==> !Purged(history[h], now)) && (h in r ==> r[h] == history[h])
      else if h in grants then
        var row := Retained(grants[h].family, grants[h].key, grants[h].refreshExpires);
        (h in r <==> !Purged(row, now)) && (h in r ==> r[h] == row)
      else h !in r
  {
  }

  lemma RestartInv(w: World, a: Action)
    requires Inv(w) && Legal(w, a) && a.Restart?
    ensures Inv(Next(w, a))
  {
    if a.issuer.Some? {
      var v := Next(w, a);
      ReconciledGrants(w.rows, a.issuer.value, w.now);
      forall h | h in v.rows.grants ensures GrantOk(h, v.rows.grants[h], v.past) {
        assert GrantOk(h, w.rows.grants[h], w.past);
      }
      forall h, j | h in v.rows.grants && j in v.rows.grants && FamilyOf(v.rows.grants[h]) == FamilyOf(v.rows.grants[j])
        ensures h == j
      {
        assert FamilyOf(w.rows.grants[h]) == FamilyOf(w.rows.grants[j]);
      }
      RestartHistory(w, a.issuer.value);
    }
  }

  lemma RestartHistory(w: World, resource: string)
    requires GrantsOk(w.rows.grants, w.past) && HistoryOk(w.rows.history, w.rows.grants, w.past, w.now)
    ensures var u := Reconciled(w.rows, resource, w.now); HistoryOk(u.history, u.grants, w.past, w.now)
  {
    var u := Reconciled(w.rows, resource, w.now);
    forall h | h in u.history ensures RetainedOk(h, u.history[h], w.past) {
      ReconciledHistory(w.rows, resource, w.now, h);
      if h in w.rows.history { assert RetainedOk(h, w.rows.history[h], w.past); }
      else { assert GrantOk(h, w.rows.grants[h], w.past); }
    }
    forall h | h in w.past.issued && h !in u.history ensures Forgettable(h, u.grants, w.past, w.now) {
      ReconciledHistory(w.rows, resource, w.now, h);
      if h in w.rows.history {
        PurgedIsExpired(w.rows.history[h], w.now);
        assert RetainedOk(h, w.rows.history[h], w.past);
      } else {
        assert Forgettable(h, w.rows.grants, w.past, w.now);
        if h in w.rows.grants {
          assert GrantOk(h, w.rows.grants[h], w.past);
          PurgedIsExpired(Backfilled(w.rows.grants[h]), w.now);
        }
      }
    }
  }

  lemma StepInv(w: World, a: Action)
    requires Inv(w) && Legal(w, a)
    ensures Inv(Next(w, a))
  {
    match a
    case Authorize(req, asked, challengeMethod, targets, registered, operator, mode) =>
      AuthorizeInv(w, req, asked, challengeMethod, targets, registered, operator, mode);
    case SelectInvite(_) => RedeemInv(w, a);
    case ClaimInvite(_, _) => RedeemInv(w, a);
    case StoreCode(_, _) => StoreCodeInv(w, a);
    case TakeCode(_, _, _) => TakeCodeInv(w, a);
    case CheckCode(_) => TakeCodeInv(w, a);
    case MintGrant(req, h) => MintInv(w, req, h);
    case Refresh(token, client, h, delay) =>
      if OutcomeAt(w, token, client).Rotated? {
        RotateInv(w, token, client, h, delay);
      } else {
        ReplayInv(w, token, client, h, delay);
      }
    case Keys(op) => KeysInv(w, op);
    case CreateInvite(_, _, _, _) =>
    case RevokeInvite(_) =>
    case Abandon(_) =>
    case Restart(_) => RestartInv(w, a);
    case Wait(time) => WaitInv(w, time);
  }

  lemma {:induction false} RunInv(w: World, run: seq<Action>)
    requires Inv(w) && LegalRun(w, run)
    ensures Inv(Exec(w, run))
    decreases |run|
  {
    if run != [] {
      StepInv(w, run[0]);
      RunInv(Next(w, run[0]), run[1..]);
    }
  }
}
