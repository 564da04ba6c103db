/** Invite budgets and single use of authorization codes: what descends from one redemption. */
module TokenBudget {
  import opened Prelude
  import opened TokenTables
  import opened TokenProtocol
  import opened TokenInvariant
  import opened TokenTheorems
  import Text

  /** Whoever may still turn one redemption of an invite into a key, or has done so. */
  datatype Holder = CodeHolder(token: Token) | RequestHolder(req: nat) | FamilyHolder(family: Family)

  /** A redemption of the invite with this id, and who holds it. */
  datatype Stake = Stake(invite: nat, holder: Holder)

  function PlaceRef(p: Place): Option<nat> {
    match p
    case Redeeming(_) => None
    case Selected(_, _) => None
    case Approved(_, _, ref) => ref
    case Taken(_, code, _) => code.ref
    case Checked(_, code, _) => code.ref
  }

  function CodeStakes(codes: map<Token, Code>): set<Stake> {
    set h | h in codes && codes[h].ref.Some? :: Stake(codes[h].ref.value, CodeHolder(h))
  }

  function RequestStakes(requests: map<nat, Place>): set<Stake> {
    set r | r in requests && PlaceRef(requests[r]).Some? :: Stake(PlaceRef(requests[r]).value, RequestHolder(r))
  }

  /** A family that was over before the service started holds nothing: its redemption went to its successor. */
  function FamilyStakes(families: map<Family, Lineage>): set<Stake> {
    set f | f in families && !families[f].over && families[f].ref.Some? :: Stake(families[f].ref.value, FamilyHolder(f))
  }

  function Stakes(codes: map<Token, Code>, requests: map<nat, Place>, families: map<Family, Lineage>): set<Stake> {
    CodeStakes(codes) + RequestStakes(requests) + FamilyStakes(families)
  }

  function Of(stakes: set<Stake>, i: nat): set<Stake> {
    set s | s in stakes && s.invite == i
  }

  ghost predicate InvitesOk(invites: map<string, Invite>, nextInvite: nat) {
    && (forall c :: c in invites ==> invites[c].id < nextInvite)
    && (forall c, d :: c in invites && d in invites && invites[c].id == invites[d].id ==> c == d)
  }

  /** The books balance: every stake is counted by its invite, and no invite is over its maximum. */
  ghost predicate LedgerOk(invites: map<string, Invite>, nextInvite: nat, stakes: set<Stake>) {
    && InvitesOk(invites, nextInvite)
    && (forall s :: s in stakes ==> s.invite < nextInvite)
    && (forall c :: c in invites ==> |Of(stakes, invites[c].id)| <= invites[c].count <= invites[c].max)
  }

  /** A request between the SELECT and the UPDATE remembers the row of the code it will update. */
  ghost predicate SelectedOk(p: Place, invites: map<string, Invite>) {
    p.Selected? ==> p.form.invite in invites && invites[p.form.invite].id == p.invite
  }

  ghost predicate AllSelectedOk(requests: map<nat, Place>, invites: map<string, Invite>) {
    forall r :: r in requests ==> SelectedOk(requests[r], invites)
  }

  ghost predicate BudgetOk(w: World) {
    && LedgerOk(w.rows.invites, w.rows.nextInvite, Stakes(w.rows.codes, w.requests, w.past.families))
    && AllSelectedOk(w.requests, w.rows.invites)
  }

  // ---------------------------------------------------------------- the ledger

  lemma LedgerShrinks(invites: map<string, Invite>, next: nat, stakes: set<Stake>, stakes': set<Stake>)
    requires LedgerOk(invites, next, stakes) && stakes' <= stakes
    ensures LedgerOk(invites, next, stakes')
  {
    forall c | c in invites ensures |Of(stakes', invites[c].id)| <= invites[c].count {
      SubsetCard(Of(stakes', invites[c].id), Of(stakes, invites[c].id));
    }
  }

  /** One holder hands its redemption on to another. */
  lemma LedgerHandsOn(invites: map<string, Invite>, next: nat, stakes: set<Stake>, stakes': set<Stake>, i: nat,
                      x: Holder, y: Holder)
    requires LedgerOk(invites, next, stakes)
    requires Stake(i, x) in stakes && stakes' <= stakes - {Stake(i, x)} + {Stake(i, y)}
    ensures LedgerOk(invites, next, stakes')
  {
    forall c | c in invites ensures |Of(stakes', invites[c].id)| <= invites[c].count {
      var j := invites[c].id;
      if i == j { SwapCard(Of(stakes, j), Of(stakes', j), Stake(i, x), Stake(i, y)); }
      else { SubsetCard(Of(stakes', j), Of(stakes, j)); }
    }
  }

  /** The one entry that is added to the books is counted by the same statement. */
  lemma LedgerClaims(invites: map<string, Invite>, next: nat, stakes: set<Stake>, stakes': set<Stake>, c: string,
                     y: Holder)
    requires LedgerOk(invites, next, stakes) && c in invites && invites[c].count < invites[c].max
    requires stakes' <= stakes + {Stake(invites[c].id, y)}
    ensures LedgerOk(Claimed(invites, c), next, stakes')
  {
    var after, s := Claimed(invites, c), Stake(invites[c].id, y);
    forall d | d in after ensures |Of(stakes', after[d].id)| <= after[d].count <= after[d].max {
      assert after[d].id == invites[d].id;
      if d == c { SubsetCard(Of(stakes', after[d].id), Of(stakes, invites[d].id) + {s}); }
      else { SubsetCard(Of(stakes', after[d].id), Of(stakes, invites[d].id)); }
    }
  }

  lemma LedgerOpens(invites: map<string, Invite>, next: nat, stakes: set<Stake>, c: string, row: Invite)
    requires LedgerOk(invites, next, stakes) && c !in invites && row.id == next && row.count == 0 < row.max
    ensures LedgerOk(invites[c := row], next + 1, stakes)
  {
    assert Of(stakes, next) == {};
  }

  lemma LedgerKeepsRevoked(invites: map<string, Invite>, next: nat, stakes: set<Stake>, id: nat)
    requires LedgerOk(invites, next, stakes)
    ensures LedgerOk(InviteRevoked(invites, id), next, stakes)
  {
    var after := InviteRevoked(invites, id);
    assert forall c :: c in after ==>
             after[c].id == invites[c].id && after[c].count == invites[c].count && after[c].max == invites[c].max;
  }

  // ---------------------------------------------------------------- one step

  lemma SelectedSubset(requests: map<nat, Place>, requests': map<nat, Place>, invites: map<string, Invite>)
    requires AllSelectedOk(requests, invites)
    requires forall r :: r in requests' ==> (r in requests && requests'[r] == requests[r]) || !requests'[r].Selected?
    ensures AllSelectedOk(requests', invites)
  {
    forall r | r in requests' ensures SelectedOk(requests'[r], invites) {
      if r in requests { assert SelectedOk(requests[r], invites); }
    }
  }

  /** Rows keep their code and id when an invite is claimed, created or revoked. */
  lemma SelectedRows(requests: map<nat, Place>, invites: map<string, Invite>, invites': map<string, Invite>)
    requires AllSelectedOk(requests, invites)
    requires forall c :: c in invites ==> c in invites' && invites'[c].id == invites[c].id
    ensures AllSelectedOk(requests, invites')
  {
    forall r | r in requests ensures SelectedOk(requests[r], invites') {
      assert SelectedOk(requests[r], invites);
    }
  }

  /** A request that holds no redemption may appear and any request may vanish. */
  lemma RequestsShrink(requests: map<nat, Place>, requests': map<nat, Place>)
    requires forall r :: r in requests' ==>
               (r in requests && PlaceRef(requests'[r]) == PlaceRef(requests[r])) || PlaceRef(requests'[r]).None?
    ensures RequestStakes(requests') <= RequestStakes(requests)
  {
    forall s | s in RequestStakes(requests') ensures s in RequestStakes(requests) {
      assert s.holder.req in requests;
    }
  }

  /** Steps that leave codes and families alone and add no redemption to a request. */
  lemma QuietRequests(w: World, v: World)
    requires BudgetOk(w) && v.rows.invites == w.rows.invites && v.rows.nextInvite == w.rows.nextInvite
    requires v.rows.codes == w.rows.codes && v.past.families == w.past.families
    requires RequestStakes(v.requests) <= RequestStakes(w.requests) && AllSelectedOk(v.requests, w.rows.invites)
    ensures BudgetOk(v)
  {
    LedgerShrinks(w.rows.invites, w.rows.nextInvite, Stakes(w.rows.codes, w.requests, w.past.families),
                  Stakes(v.rows.codes, v.requests, v.past.families));
  }

  lemma AuthorizeBudget(w: World, req: nat, asked: Option<Form>, challengeMethod: string, targets: seq<string>,
                        registered: bool, operator: bool, mode: Mode)
    requires BudgetOk(w) && req !in w.requests
    ensures BudgetOk(DoAuthorize(w, req, asked, challengeMethod, targets, registered, operator, mode))
  {
    var v := DoAuthorize(w, req, asked, challengeMethod, targets, registered, operator, mode);
    RequestsShrink(w.requests, v.requests);
    SelectedSubset(w.requests, v.requests, w.rows.invites);
    QuietRequests(w, v);
  }

  lemma DropBudget(w: World, req: nat)
    requires BudgetOk(w)
    ensures BudgetOk(Drop(w, req))
  {
    var v := Drop(w, req);
    RequestsShrink(w.requests, v.requests);
    SelectedSubset(w.requests, v.requests, w.rows.invites);
    QuietRequests(w, v);
  }

  lemma SelectBudget(w: World, req: nat)
    requires BudgetOk(w)
    ensures BudgetOk(DoSelectInvite(w, req))
  {
    if req in w.requests && w.requests[req].Redeeming? {
      var f := w.requests[req].form;
      var r := CheckTrimmed(w.rows.invites, f.invite, f.agent, w.now);
      match r
      case Err(_) => DropBudget(w, req);
      case Ok(id) =>
        var p := Selected(f, id);
        assert SelectedOk(p, w.rows.invites);
        PlaceBudget(w, req, p);
    }
  }

  lemma PlaceBudget(w: World, req: nat, p: Place)
    requires BudgetOk(w) && SelectedOk(p, w.rows.invites)
    requires PlaceRef(p).None? || (req in w.requests && PlaceRef(w.requests[req]) == PlaceRef(p))
    ensures BudgetOk(w.(requests := w.requests[req := p]))
  {
    var after := w.requests[req := p];
    forall r | r in after ensures SelectedOk(after[r], w.rows.invites) {
      if r != req { assert SelectedOk(w.requests[r], w.rows.invites); }
    }
    RequestsShrink(w.requests, after);
    QuietRequests(w, w.(requests := after));
  }

  lemma ClaimBudget(w: World, req: nat, textLater: bool)
    requires BudgetOk(w)
    ensures BudgetOk(DoClaimInvite(w, req, textLater))
  {
    if req in w.requests && w.requests[req].Selected? {
      var p := w.requests[req];
      var c := p.form.invite;
      if Claimable(w.rows.invites, c, textLater) {
        assert SelectedOk(p, w.rows.invites);
        ClaimedBudget(w, req, c, p.form, p.invite);
      } else {
        DropBudget(w, req);
      }
    }
  }

  lemma ClaimedBudget(w: World, req: nat, c: string, f: Form, id: nat)
    requires BudgetOk(w) && c in w.rows.invites && w.rows.invites[c].count < w.rows.invites[c].max
             && id == w.rows.invites[c].id
    ensures BudgetOk(w.(rows := w.rows.(invites := Claimed(w.rows.invites, c)),
                        requests := w.requests[req := Approved(f, RefCode, Some(id))]))
  {
    var invites, requests := Claimed(w.rows.invites, c), w.requests[req := Approved(f, RefCode, Some(id))];
    var s := Stake(id, RequestHolder(req));
    assert RequestStakes(requests) <= RequestStakes(w.requests) + {s} by {
      forall x | x in RequestStakes(requests) ensures x in RequestStakes(w.requests) + {s} {
        if x != s { assert x.holder.req in w.requests; }
      }
    }
    LedgerClaims(w.rows.invites, w.rows.nextInvite, Stakes(w.rows.codes, w.requests, w.past.families),
                 Stakes(w.rows.codes, requests, w.past.families), c, RequestHolder(req));
    SelectedSubset(w.requests, requests, w.rows.invites);
    SelectedRows(requests, w.rows.invites, invites);
  }

  /** A redemption moves from one place to another: request to code, code to request, request to family. */
  lemma Moved(w: World, v: World, ref: Option<nat>, x: Holder, y: Holder)
    requires BudgetOk(w) && v.rows.invites == w.rows.invites && v.rows.nextInvite == w.rows.nextInvite
    requires AllSelectedOk(v.requests, w.rows.invites)
    requires var a, b := Stakes(w.rows.codes, w.requests, w.past.families),
             Stakes(v.rows.codes, v.requests, v.past.families);
      && (ref.None? ==> b <= a)
      && (ref.Some? ==> Stake(ref.value, x) in a && b <= a - {Stake(ref.value, x)} + {Stake(ref.value, y)})
    ensures BudgetOk(v)
  {
    var a, b := Stakes(w.rows.codes, w.requests, w.past.families), Stakes(v.rows.codes, v.requests, v.past.families);
    if ref.None? { LedgerShrinks(w.rows.invites, w.rows.nextInvite, a, b); }
    else { LedgerHandsOn(w.rows.invites, w.rows.nextInvite, a, b, ref.value, x, y); }
  }

  /** What a request that goes away held. */
  lemma RequestGone(requests: map<nat, Place>, req: nat)
    requires req in requests
    ensures var ref := PlaceRef(requests[req]);
      (ref.None? ==> RequestStakes(requests - {req}) <= RequestStakes(requests))
      && (ref.Some? ==> Stake(ref.value, RequestHolder(req)) in RequestStakes(requests)
                        && RequestStakes(requests - {req})
                           <= RequestStakes(requests) - {Stake(ref.value, RequestHolder(req))})
  {
    var rest := requests - {req};
    forall s | s in RequestStakes(rest) ensures s in RequestStakes(requests) && s.holder != RequestHolder(req) {
      assert s.holder.req in requests && s.holder.req != req;
    }
  }

  lemma StoreBudget(w: World, req: nat, h: Token)
    requires BudgetOk(w) && h !in w.rows.codes
    ensures BudgetOk(DoStoreCode(w, req, h))
  {
    if req in w.requests && w.requests[req].Approved? && w.audience.Some? {
      var v := DoStoreCode(w, req, h);
      var ref := PlaceRef(w.requests[req]);
      RequestGone(w.requests, req);
      CodeAdded(w.rows.codes, h, v.rows.codes[h]);
      SelectedSubset(w.requests, v.requests, w.rows.invites);
      Moved(w, v, ref, RequestHolder(req), CodeHolder(h));
    }
  }

  lemma CodeAdded(codes: map<Token, Code>, h: Token, c: Code)
    requires h !in codes
    ensures CodeStakes(codes[h := c])
            == CodeStakes(codes) + (if c.ref.Some? then {Stake(c.ref.value, CodeHolder(h))} else {})
  {
    var after := codes[h := c];
    forall s | s in CodeStakes(codes) ensures s in CodeStakes(after) {
      assert s.holder.token in after && after[s.holder.token] == codes[s.holder.token];
    }
    if c.ref.Some? { assert after[h].ref.Some?; }
  }

  lemma TakeBudget(w: World, req: nat, token: Token, ask: Ask)
    requires BudgetOk(w) && req !in w.requests
    ensures BudgetOk(DoTakeCode(w, req, token, ask))
  {
    if w.audience.Some? && Complete(ask) && token in w.rows.codes {
      var v, c := DoTakeCode(w, req, token, ask), w.rows.codes[token];
      assert v.rows.codes[token := c] == w.rows.codes;
      CodeAdded(v.rows.codes, token, c);
      RequestGone(v.requests, req);
      assert v.requests - {req} == w.requests;
      forall s | s in RequestStakes(v.requests)
        ensures s in RequestStakes(w.requests) || (c.ref.Some? && s == Stake(c.ref.value, RequestHolder(req)))
      {
        if s.holder.req != req { assert s.holder.req in w.requests; }
      }
      SelectedSubset(w.requests, v.requests, w.rows.invites);
      Moved(w, v, c.ref, CodeHolder(token), RequestHolder(req));
    }
  }

  lemma CheckBudget(w: World, req: nat)
    requires BudgetOk(w)
    ensures BudgetOk(DoCheckCode(w, req))
  {
    if req in w.requests && w.requests[req].Taken? && w.audience.Some? {
      var p := w.requests[req];
      if CodeMatches(p.code, p.ask, w.audience.value, w.now) {
        PlaceBudget(w, req, Checked(p.token, p.code, p.ask));
      } else {
        DropBudget(w, req);
      }
    }
  }

  lemma MintBudget(w: World, req: nat, h: Token)
    requires BudgetOk(w) && Rooted(h) !in w.past.families
    ensures BudgetOk(DoMintGrant(w, req, h))
  {
    if req in w.requests && w.requests[req].Checked? {
      MintedWorld(w, req, h);
      var v, p := DoMintGrant(w, req, h), w.requests[req];
      RequestGone(w.requests, req);
      assert v.rows.invites == w.rows.invites && v.rows.nextInvite == w.rows.nextInvite;
      FamilyAdded(w.past.families, Rooted(h), BornFrom(p.token, p.code, w.now));
      SelectedSubset(w.requests, v.requests, w.rows.invites);
      Moved(w, v, p.code.ref, RequestHolder(req), FamilyHolder(Rooted(h)));
    }
  }

  lemma FamilyAdded(families: map<Family, Lineage>, f: Family, line: Lineage)
    requires f !in families && !line.over
    ensures FamilyStakes(families[f := line])
            == FamilyStakes(families) + (if line.ref.Some? then {Stake(line.ref.value, FamilyHolder(f))} else {})
  {
    var after := families[f := line];
    forall s | s in FamilyStakes(families) ensures s in FamilyStakes(after) {
      assert s.holder.family in after && after[s.holder.family] == families[s.holder.family];
    }
    if line.ref.Some? { assert after[f].ref.Some?; }
  }

  lemma CreateBudget(w: World, code: string, bind: string, max: int, expires: Instant)
    requires BudgetOk(w)
    ensures BudgetOk(DoCreateInvite(w, code, bind, max, expires))
  {
    if max > 0 && code !in w.rows.invites {
      CreatedBudget(w, code, Invite(w.rows.nextInvite, bind, max, 0, expires, false));
    }
  }

  lemma CreatedBudget(w: World, code: string, row: Invite)
    requires BudgetOk(w) && code !in w.rows.invites && row.id == w.rows.nextInvite && row.count == 0 < row.max
    ensures BudgetOk(w.(rows := w.rows.(invites := w.rows.invites[code := row], nextInvite := w.rows.nextInvite + 1)))
  {
    LedgerOpens(w.rows.invites, w.rows.nextInvite, Stakes(w.rows.codes, w.requests, w.past.families), code, row);
    SelectedRows(w.requests, w.rows.invites, w.rows.invites[code := row]);
  }

  lemma RevokeInviteBudget(w: World, id: nat)
    requires BudgetOk(w)
    ensures BudgetOk(w.(rows := w.rows.(invites := InviteRevoked(w.rows.invites, id))))
  {
    LedgerKeepsRevoked(w.rows.invites, w.rows.nextInvite, Stakes(w.rows.codes, w.requests, w.past.families), id);
    SelectedRows(w.requests, w.rows.invites, InviteRevoked(w.rows.invites, id));
  }

  lemma RestartBudget(w: World, issuer: Option<string>)
    requires BudgetOk(w)
    ensures BudgetOk(DoRestart(w, issuer))
  {
    var v := DoRestart(w, issuer);
    RequestsShrink(w.requests, map[]);
    if issuer.Some? {
      ReconciledGrants(w.rows, issuer.value, w.now);
      assert CodeStakes(v.rows.codes) <= CodeStakes(w.rows.codes) by {
        forall s | s in CodeStakes(v.rows.codes) ensures s in CodeStakes(w.rows.codes) {
          assert s.holder.token in w.rows.codes;
        }
      }
    }
    LedgerShrinks(w.rows.invites, w.rows.nextInvite, Stakes(w.rows.codes, w.requests, w.past.families),
                  Stakes(v.rows.codes, v.requests, v.past.families));
  }

  lemma RefreshBudget(w: World, token: Token, client: string, h: Token, delay: nat)
    requires BudgetOk(w)
    ensures BudgetOk(DoRefresh(w, token, client, h, delay))
  {
    if OutcomeAt(w, token, client).Rotated? { RotatedWorld(w, token, client, h, delay); }
    var v := DoRefresh(w, token, client, h, delay);
    assert v.rows.codes == w.rows.codes && v.rows.invites == w.rows.invites && v.rows.nextInvite == w.rows.nextInvite;
    assert v.requests == w.requests && v.past.families == w.past.families;
  }

  lemma StepBudget(w: World, a: Action)
    requires Inv(w) && Legal(w, a) && BudgetOk(w)
    ensures BudgetOk(Next(w, a))
  {
    match a
    case Authorize(req, asked, challengeMethod, targets, registered, operator, mode) =>
      AuthorizeBudget(w, req, asked, challengeMethod, targets, registered, operator, mode);
    case SelectInvite(req) => SelectBudget(w, req);
    case ClaimInvite(req, textLater) => ClaimBudget(w, req, textLater);
    case StoreCode(req, h) => StoreBudget(w, req, h);
    case TakeCode(req, token, ask) => TakeBudget(w, req, token, ask);
    case MintGrant(req, h) => MintBudget(w, req, h);
    case CreateInvite(code, bind, max, expires) => CreateBudget(w, code, Text.TrimSpace(bind), max, expires);
    case RevokeInvite(id) => RevokeInviteBudget(w, id);
    case CheckCode(req) => CheckBudget(w, req);
    case Refresh(token, client, h, delay) => RefreshBudget(w, token, client, h, delay);
    case Abandon(req) => DropBudget(w, req);
    case Restart(issuer) => RestartBudget(w, issuer);
    case _ =>
  }

  lemma {:induction false} RunBudget(w: World, run: seq<Action>)
    requires Inv(w) && LegalRun(w, run) && BudgetOk(w)
    ensures BudgetOk(Exec(w, run))
    decreases |run|
  {
    if run != [] {
      StepInv(w, run[0]);
      StepBudget(w, run[0]);
      RunBudget(Next(w, run[0]), run[1..]);
    }
  }

  // ---------------------------------------------------------------- the budget, end to end

  /** Keys of the invite that are accepted in this state. */
  ghost function AcceptedWith(w: World, i: nat): set<nat> {
    set k | k in w.rows.keys && w.rows.keys[k].ref == Some(i) && Accepted(w, k)
  }

  /** Unexchanged codes of the invite. */
  function CodesOf(codes: map<Token, Code>, i: nat): set<Token> {
    set h | h in codes && codes[h].ref == Some(i)
  }

  /** Requests in flight that have redeemed the invite or carry one of its codes. */
  function RequestsOf(requests: map<nat, Place>, i: nat): set<nat> {
    set r | r in requests && PlaceRef(requests[r]) == Some(i)
  }

  /** Families started from the invite, without those that were over before the service started. */
  function FamiliesOf(families: map<Family, Lineage>, i: nat): set<Family> {
    set f | f in families && !families[f].over && families[f].ref == Some(i)
  }

  lemma CountCodes(codes: map<Token, Code>, i: nat)
    ensures |CodesOf(codes, i)| <= |Of(CodeStakes(codes), i)|
  {
    InjectionCard(CodesOf(codes, i), Of(CodeStakes(codes), i),
                  map h | h in CodesOf(codes, i) :: Stake(i, CodeHolder(h)));
  }

  lemma CountRequests(requests: map<nat, Place>, i: nat)
    ensures |RequestsOf(requests, i)| <= |Of(RequestStakes(requests), i)|
  {
    InjectionCard(RequestsOf(requests, i), Of(RequestStakes(requests), i),
                  map r | r in RequestsOf(requests, i) :: Stake(i, RequestHolder(r)));
  }

  lemma CountFamilies(families: map<Family, Lineage>, i: nat)
    ensures |FamiliesOf(families, i)| <= |Of(FamilyStakes(families), i)|
  {
    InjectionCard(FamiliesOf(families, i), Of(FamilyStakes(families), i),
                  map f | f in FamiliesOf(families, i) :: Stake(i, FamilyHolder(f)));
  }

  lemma CountStakes(codes: map<Token, Code>, requests: map<nat, Place>, families: map<Family, Lineage>, i: nat)
    ensures |FamiliesOf(families, i)| + |CodesOf(codes, i)| + |RequestsOf(requests, i)|
            <= |Of(Stakes(codes, requests, families), i)|
  {
    CountCodes(codes, i);
    CountRequests(requests, i);
    CountFamilies(families, i);
    CountApart(CodeStakes(codes), RequestStakes(requests), FamilyStakes(families), i);
  }

  lemma CountApart(x: set<Stake>, y: set<Stake>, z: set<Stake>, i: nat)
    requires (forall s :: s in x ==> s.holder.CodeHolder?) && (forall s :: s in y ==> s.holder.RequestHolder?)
    requires forall s :: s in z ==> s.holder.FamilyHolder?
    ensures |Of(x + y + z, i)| == |Of(x, i)| + |Of(y, i)| + |Of(z, i)|
  {
    assert Of(x + y + z, i) == Of(x, i) + Of(y, i) + Of(z, i);
    assert |Of(x, i) + Of(y, i)| == |Of(x, i)| + |Of(y, i)| by { assert Of(x, i) !! Of(y, i); }
    assert Of(x, i) + Of(y, i) !! Of(z, i);
  }

  // ---------------------------------------------------------------- databases to start from

  function KeyRef(rows: Tables, k: nat): Option<nat> {
    if k in rows.keys then rows.keys[k].ref else None
  }

  /** Grants whose key carries the invite. */
  function GrantsOf(rows: Tables, i: nat): set<Token> {
    set h | h in rows.grants && KeyRef(rows, rows.grants[h].key) == Some(i)
  }

  /** The books of the previous release: each grant and each code of an invite was counted by it. */
  ghost predicate LegacyBooks(rows: Tables) {
    && InvitesOk(rows.invites, rows.nextInvite)
    && (forall h :: h in rows.codes && rows.codes[h].ref.Some? ==> rows.codes[h].ref.value < rows.nextInvite)
    && (forall h :: h in rows.grants && KeyRef(rows, rows.grants[h].key).Some? ==>
          KeyRef(rows, rows.grants[h].key).value < rows.nextInvite)
    && (forall c :: c in rows.invites ==>
          var row := rows.invites[c];
          |GrantsOf(rows, row.id)| + |CodesOf(rows.codes, row.id)| <= row.count <= row.max)
  }

  lemma CodesBound(codes: map<Token, Code>, i: nat)
    ensures |Of(CodeStakes(codes), i)| <= |CodesOf(codes, i)|
  {
    var s := Of(CodeStakes(codes), i);
    InjectionCard(s, CodesOf(codes, i), map x | x in s :: x.holder.token);
  }

  /** A legacy family that is not over is that of a grant, whose key has the invite of the family. */
  lemma LegacyFamily(w: World, f: Family) returns (h: Token)
    requires Start(w) && f in w.past.families && !w.past.families[f].over
    ensures h in w.rows.grants && f == Legacy(w.rows.grants[h].key)
            && w.past.families[f].ref == KeyRef(w.rows, w.rows.grants[h].key)
  {
    h :| h in LegacyTokens(w.rows) && LegacyKey(w.rows, h) == f.key;
    assert LegacyRow(h, w.rows, w.past);
  }

  lemma FamiliesBound(w: World, i: nat)
    requires Start(w)
    ensures |Of(FamilyStakes(w.past.families), i)| <= |GrantsOf(w.rows, i)|
  {
    var s := Of(FamilyStakes(w.past.families), i);
    forall x | x in s
      ensures exists h :: h in GrantsOf(w.rows, i) && x.holder == FamilyHolder(Legacy(w.rows.grants[h].key))
    {
      var h := LegacyFamily(w, x.holder.family);
      assert h in GrantsOf(w.rows, i);
    }
    InjectionCard(s, GrantsOf(w.rows, i), map x | x in s :: GrantBehind(w, i, x));
  }

  ghost function GrantBehind(w: World, i: nat, x: Stake): (h: Token)
    requires exists h :: h in GrantsOf(w.rows, i) && x.holder == FamilyHolder(Legacy(w.rows.grants[h].key))
    ensures h in GrantsOf(w.rows, i) && x.holder == FamilyHolder(Legacy(w.rows.grants[h].key))
  {
    var h :| h in GrantsOf(w.rows, i) && x.holder == FamilyHolder(Legacy(w.rows.grants[h].key));
    h
  }

  /**
   * An upgraded installation, whose invite codes have been redeemed, exchanged and refreshed by the previous release,
   * starts within budget when the tables of that release balance.
   */
  lemma UpgradedInstallation(w: World)
    requires Start(w) && LegacyBooks(w.rows)
    ensures BudgetOk(w)
  {
    var codes, families := CodeStakes(w.rows.codes), FamilyStakes(w.past.families);
    var stakes := Stakes(w.rows.codes, w.requests, w.past.families);
    assert RequestStakes(w.requests) == {};
    forall s | s in stakes ensures s.invite < w.rows.nextInvite {
      if s in families { var h := LegacyFamily(w, s.holder.family); }
    }
    forall c | c in w.rows.invites ensures |Of(stakes, w.rows.invites[c].id)| <= w.rows.invites[c].count {
      var i := w.rows.invites[c].id;
      CodesBound(w.rows.codes, i);
      FamiliesBound(w, i);
      CountApart(codes, {}, families, i);
      assert stakes == codes + {} + families && Of({}, i) == {};
    }
  }

  /** A new installation, also one whose administrator has already created invites, starts within budget. */
  lemma NewInstallation(w: World)
    requires Start(w) && w.rows.codes == map[] && w.rows.grants == map[] && InvitesOk(w.rows.invites, w.rows.nextInvite)
    requires forall c :: c in w.rows.invites ==> 0 <= w.rows.invites[c].count <= w.rows.invites[c].max
    ensures BudgetOk(w)
  {
    assert forall i: nat :: GrantsOf(w.rows, i) == {} && CodesOf(w.rows.codes, i) == {};
    UpgradedInstallation(w);
  }

  /** Each accepted key of the invite belongs to a family of its own. */
  lemma AcceptedInjects(w: World, i: nat)
    requires Inv(w)
    ensures |AcceptedWith(w, i)| <= |FamiliesOf(w.past.families, i)|
  {
    var keys := AcceptedWith(w, i);
    forall k | k in keys
      ensures k in w.past.kin && w.past.kin[k] in FamiliesOf(w.past.families, i)
      ensures forall l :: l in keys && l in w.past.kin && w.past.kin[l] == w.past.kin[k] ==> l == k
    {
      AcceptedIsKin(w, k);
      var h := KinIsGranted(w, k);
      forall l | l in keys && l in w.past.kin && w.past.kin[l] == w.past.kin[k] ensures l == k {
        var j := KinIsGranted(w, l);
      }
    }
    InjectionCard(keys, FamiliesOf(w.past.families, i), map k | k in keys :: w.past.kin[k]);
  }

  lemma AcceptedIsKin(w: World, k: nat)
    requires Inv(w) && Accepted(w, k) && w.rows.keys[k].ref.Some?
    ensures k in w.past.kin && w.past.kin[k] in w.past.families
    ensures w.past.families[w.past.kin[k]].ref == w.rows.keys[k].ref && !w.past.families[w.past.kin[k]].over
  {
    assert KeyOk(k, w.rows.keys[k], w.past);
    var h :| h in w.rows.grants && w.rows.grants[h].key == k && w.rows.grants[h].resource == w.audience.value;
    assert GrantOk(h, w.rows.grants[h], w.past);
  }

  /**
   * Invite budget, end to end: in every reachable state of every interleaving, the families that descend from an
   * invite, its unexchanged codes and the requests in flight that hold one of its redemptions together do not
   * exceed its redemption count, nor that its maximum; so no more than the maximum number of keys carrying the
   * invite is ever accepted at once, through any number of refreshes.
   */
  lemma InviteBudget(w0: World, run: seq<Action>, w: World, c: string)
    requires Reached(w0, run, w) && LegacyBooks(w0.rows) && c in w.rows.invites
    ensures var row := w.rows.invites[c];
      && |FamiliesOf(w.past.families, row.id)| + |CodesOf(w.rows.codes, row.id)| + |RequestsOf(w.requests, row.id)|
         <= row.count <= row.max
      && |AcceptedWith(w, row.id)| <= row.max
  {
    StartInv(w0);
    UpgradedInstallation(w0);
    RunInv(w0, run);
    RunBudget(w0, run);
    CountStakes(w.rows.codes, w.requests, w.past.families, w.rows.invites[c].id);
    AcceptedInjects(w, w.rows.invites[c].id);
  }

  // ---------------------------------------------------------------- an authorization code founds at most one family

  function PlaceCode(p: Place): Option<Token> {
    if p.Taken? || p.Checked? then Some(p.token) else None
  }

  /** A code is in the table, or with one request, or spent on one family. */
  ghost predicate OnceOk(codes: map<Token, Code>, requests: map<nat, Place>, families: map<Family, Lineage>,
                         used: set<Token>)
  {
    && (forall r :: r in requests && PlaceCode(requests[r]).Some? ==> PlaceCode(requests[r]).value !in codes)
    && (forall r, q ::
          r in requests && q in requests && PlaceCode(requests[r]).Some?
          && PlaceCode(requests[r]) == PlaceCode(requests[q])
          ==> r == q)
    && (forall f :: f in families && families[f].code.Some? ==>
          families[f].code.value in used && families[f].code.value !in codes)
    && (forall f, r :: f in families && r in requests && families[f].code.Some? ==>
          PlaceCode(requests[r]) != families[f].code)
    && (forall f, g ::
          f in families && g in families && families[f].code.Some? && families[f].code == families[g].code ==> f == g)
  }

  ghost predicate CodesOnce(w: World) {
    OnceOk(w.rows.codes, w.requests, w.past.families, w.used)
  }

  lemma OnceShrinks(w: World, v: World)
    requires CodesOnce(w) && v.rows.codes.Keys <= w.rows.codes.Keys && v.past.families == w.past.families
             && w.used <= v.used
    requires forall r :: r in v.requests && PlaceCode(v.requests[r]).Some? ==>
               r in w.requests && PlaceCode(v.requests[r]) == PlaceCode(w.requests[r])
    ensures CodesOnce(v)
  {
  }

  lemma StoreOnce(w: World, req: nat, h: Token)
    requires Inv(w) && CodesOnce(w) && h !in w.used
    ensures CodesOnce(DoStoreCode(w, req, h))
  {
    assert forall r :: r in w.requests ==> PlaceOk(w.requests[r], w.used, w.audience);
  }

  lemma TakeOnce(w: World, req: nat, token: Token, ask: Ask)
    requires Inv(w) && CodesOnce(w) && req !in w.requests
    ensures CodesOnce(DoTakeCode(w, req, token, ask))
  {
    if w.audience.Some? && Complete(ask) && token in w.rows.codes {
      TakenOnce(w.rows.codes, w.requests, w.past.families, w.used, req, token, Taken(token, w.rows.codes[token], ask));
    }
  }

  lemma TakenOnce(codes: map<Token, Code>, requests: map<nat, Place>, families: map<Family, Lineage>, used: set<Token>,
                  req: nat, token: Token, place: Place)
    requires OnceOk(codes, requests, families, used) && req !in requests && token in codes
             && PlaceCode(place) == Some(token)
    ensures OnceOk(codes - {token}, requests[req := place], families, used)
  {
  }

  lemma MintOnce(w: World, req: nat, h: Token)
    requires Inv(w) && CodesOnce(w) && h !in w.used
    ensures CodesOnce(DoMintGrant(w, req, h))
  {
    if req in w.requests && w.requests[req].Checked? {
      MintedWorld(w, req, h);
      assert PlaceOk(w.requests[req], w.used, w.audience);
      MintedOnce(w.rows.codes, w.requests, w.past.families, w.used, req, Rooted(h),
                 BornFrom(w.requests[req].token, w.requests[req].code, w.now), h);
    }
  }

  lemma MintedOnce(codes: map<Token, Code>, requests: map<nat, Place>, families: map<Family, Lineage>, used: set<Token>,
                   req: nat, f: Family, line: Lineage, h: Token)
    requires OnceOk(codes, requests, families, used) && req in requests && f !in families
    requires PlaceCode(requests[req]).Some? && line.code == PlaceCode(requests[req]) && line.code.value in used
    ensures OnceOk(codes, requests - {req}, families[f := line], used + {h})
  {
  }

  lemma SelectOnce(w: World, req: nat)
    requires CodesOnce(w)
    ensures CodesOnce(DoSelectInvite(w, req))
  {
    var v := DoSelectInvite(w, req);
    assert v.rows == w.rows && v.past == w.past && v.used == w.used;
    assert forall r :: r in v.requests ==> r in w.requests && (v.requests[r] == w.requests[r] || v.requests[r].Selected?);
    OnceShrinks(w, v);
  }

  lemma ClaimOnce(w: World, req: nat, later: bool)
    requires CodesOnce(w)
    ensures CodesOnce(DoClaimInvite(w, req, later))
  {
    var v := DoClaimInvite(w, req, later);
    assert v.rows.codes == w.rows.codes && v.past == w.past && v.used == w.used;
    assert forall r :: r in v.requests ==> r in w.requests && (v.requests[r] == w.requests[r] || v.requests[r].Approved?);
    OnceShrinks(w, v);
  }

  lemma CheckOnce(w: World, req: nat)
    requires CodesOnce(w)
    ensures CodesOnce(DoCheckCode(w, req))
  {
    var v := DoCheckCode(w, req);
    assert v.rows == w.rows && v.past == w.past && v.used == w.used;
    assert forall r :: r in v.requests ==> r in w.requests && PlaceCode(v.requests[r]) == PlaceCode(w.requests[r]);
    OnceShrinks(w, v);
  }

  lemma RefreshOnce(w: World, token: Token, client: string, h: Token, delay: nat)
    requires CodesOnce(w)
    ensures CodesOnce(DoRefresh(w, token, client, h, delay))
  {
    if OutcomeAt(w, token, client).Rotated? { RotatedWorld(w, token, client, h, delay); }
    var v := DoRefresh(w, token, client, h, delay);
    assert v.rows.codes == w.rows.codes && v.past.families == w.past.families && w.used <= v.used
           && v.requests == w.requests;
    OnceShrinks(w, v);
  }

  lemma RestartOnce(w: World, issuer: Option<string>)
    requires CodesOnce(w)
    ensures CodesOnce(DoRestart(w, issuer))
  {
    if issuer.Some? { ReconciledGrants(w.rows, issuer.value, w.now); }
    OnceShrinks(w, DoRestart(w, issuer));
  }

  lemma StepOnce(w: World, a: Action)
    requires Inv(w) && Legal(w, a) && CodesOnce(w)
    ensures CodesOnce(Next(w, a))
  {
    match a
    case Authorize(req, asked, challengeMethod, targets, registered, operator, mode) =>
      OnceShrinks(w, DoAuthorize(w, req, asked, challengeMethod, targets, registered, operator, mode));
    case SelectInvite(req) => SelectOnce(w, req);
    case ClaimInvite(req, later) => ClaimOnce(w, req, later);
    case StoreCode(req, h) => StoreOnce(w, req, h);
    case TakeCode(req, token, ask) => TakeOnce(w, req, token, ask);
    case CheckCode(req) => CheckOnce(w, req);
    case MintGrant(req, h) => MintOnce(w, req, h);
    case Refresh(token, client, h, delay) => RefreshOnce(w, token, client, h, delay);
    case Restart(issuer) => RestartOnce(w, issuer);
    case _ => OnceShrinks(w, Next(w, a));
  }

  lemma {:induction false} RunOnce(w: World, run: seq<Action>)
    requires Inv(w) && LegalRun(w, run) && CodesOnce(w)
    ensures CodesOnce(Exec(w, run))
    decreases |run|
  {
    if run != [] {
      StepInv(w, run[0]);
      StepOnce(w, run[0]);
      RunOnce(Next(w, run[0]), run[1..]);
    }
  }

  /** However many exchanges present one code, and however they interleave, it founds at most one family. */
  lemma CodeYieldsOneFamily(w0: World, run: seq<Action>, w: World, f: Family, g: Family)
    requires Reached(w0, run, w) && f in w.past.families && g in w.past.families
    requires w.past.families[f].code.Some? && w.past.families[f].code == w.past.families[g].code
    ensures f == g && w.past.families[f].code.value !in w.rows.codes
  {
    StartInv(w0);
    assert CodesOnce(w0) by {
      forall x | x in w0.past.families ensures w0.past.families[x].code.None? {
        var h :| h in LegacyTokens(w0.rows) && LegacyKey(w0.rows, h) == x.key;
        assert LegacyRow(h, w0.rows, w0.past);
      }
    }
    RunOnce(w0, run);
  }
}
