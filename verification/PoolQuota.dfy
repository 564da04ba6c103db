/** Quota work and inference share the rows of provider_keys without disturbing each other. */
module PoolQuota {
  import opened Prelude
  import opened QuotaConfig
  import opened EndpointPool
  import opened PoolQueue

  /**
   * One step of a mixed run: an inference selection with its update of last_used_at, a provider-level quota refresh,
   * which selects an endpoint in the same way, or any other write.
   */
  datatype Act = Ask(provider: string, now: Stamp) | Refresh(provider: string, now: Stamp) | Write(s: Step)

  /** The answer to an inference selection. */
  ghost function Answer(rows: Rows, provider: string, now: Stamp): Option<Selected> {
    match Choice(rows, provider, now)
    case None => None
    case Some(id) => Some(Selected(id, rows[id].baseUrl, rows[id].apiKey))
  }

  ghost function AfterSelect(rows: Rows, provider: string, now: Stamp): Rows {
    match Choice(rows, provider, now)
    case None => rows
    case Some(id) => UpdateRow(rows, id, Used(now))
  }

  ghost function AfterAct(rows: Rows, a: Act): Rows {
    match a
    case Ask(provider, now) => AfterSelect(rows, provider, now)
    case Refresh(provider, now) => AfterSelect(rows, provider, now)
    case Write(s) => NextRows(rows, s)
  }

  ghost function AfterActs(rows: Rows, run: seq<Act>): Rows
    decreases |run|
  {
    if run == [] then rows else AfterActs(AfterAct(rows, run[0]), run[1..])
  }

  /** What the inference selections of a run were answered, in order. */
  ghost function Answers(rows: Rows, run: seq<Act>): seq<Option<Selected>>
    decreases |run|
  {
    if run == [] then []
    else
      (if run[0].Ask? then [Answer(rows, run[0].provider, run[0].now)] else [])
      + Answers(AfterAct(rows, run[0]), run[1..])
  }

  /** Sidecar update, quota key rotation, recording an event (per-key and refresh-all), and provider-level refresh. */
  predicate IsQuota(a: Act) {
    a.Refresh? || (a.Write? && a.s.Update? && (a.s.op.QuotaUpdate? || a.s.op.QuotaRotate? || a.s.op.Note?))
  }

  /** Selection, the marks of the forwarder, and the resets of the routing state. */
  predicate IsInference(a: Act) {
    a.Ask? || (a.Write? && a.s.Update? && (a.s.op.Used? || a.s.op.Success? || a.s.op.Failure? || a.s.op.ResetCooldown?
                                           || a.s.op.ResetSelection? || a.s.op.Demote?))
  }

  function WithoutQuota(run: seq<Act>): seq<Act> {
    if run == [] then [] else (if IsQuota(run[0]) then [] else [run[0]]) + WithoutQuota(run[1..])
  }

  function WithoutInference(run: seq<Act>): seq<Act> {
    if run == [] then [] else (if IsInference(run[0]) then [] else [run[0]]) + WithoutInference(run[1..])
  }

  // ---------------------------------------------------------------- inference does not see quota work

  /** A row without its quota columns, last event and time of last use. */
  function Routing(e: Endpoint): Endpoint {
    e.(quota := Sidecar(Disabled, Grok2apiAdmin, None, None, None), event := None, lastUsed := None)
  }

  ghost predicate SameRouting(rows: Rows, u: Rows) {
    && rows.Keys == u.Keys
    && forall id :: id in rows ==> Routing(rows[id]) == Routing(u[id])
  }

  lemma SameAnswer(rows: Rows, u: Rows, provider: string, now: Stamp)
    requires SameRouting(rows, u)
    ensures Choice(u, provider, now) == Choice(rows, provider, now)
    ensures Answer(u, provider, now) == Answer(rows, provider, now)
  {
    forall id | id in rows
      ensures Eligible(u[id], provider, now) == Eligible(rows[id], provider, now)
              && u[id].lastFailed == rows[id].lastFailed
      ensures u[id].baseUrl == rows[id].baseUrl && u[id].apiKey == rows[id].apiKey
    {
      assert Routing(rows[id]) == Routing(u[id]);
    }
    var c := Choice(rows, provider, now);
    if c.Some? { ChoiceIs(u, provider, now, c.value); }
  }

  lemma OpKeepsRouting(rows: Rows, u: Rows, id: nat, op: RowOp)
    requires SameRouting(rows, u)
    ensures SameRouting(UpdateRow(rows, id, op), UpdateRow(u, id, op))
  {
    if id in rows { assert Routing(rows[id]) == Routing(u[id]); }
  }

  lemma UnseenOp(rows: Rows, id: nat, op: RowOp)
    requires op.QuotaUpdate? || op.QuotaRotate? || op.Note? || op.Used?
    ensures SameRouting(UpdateRow(rows, id, op), rows)
  {
  }

  lemma SelectKeepsRouting(rows: Rows, provider: string, now: Stamp)
    ensures SameRouting(AfterSelect(rows, provider, now), rows)
  {
    var c := Choice(rows, provider, now);
    if c.Some? { UnseenOp(rows, c.value, Used(now)); }
  }

  lemma RoutingChain(a: Rows, b: Rows, c: Rows)
    requires SameRouting(a, b) && SameRouting(b, c)
    ensures SameRouting(a, c) && SameRouting(b, a)
  {
  }

  lemma ActKeepsRouting(rows: Rows, u: Rows, a: Act)
    requires SameRouting(rows, u)
    ensures if IsQuota(a) then SameRouting(AfterAct(rows, a), u) else SameRouting(AfterAct(rows, a), AfterAct(u, a))
  {
    match a
    case Ask(provider, now) =>
      SelectKeepsRouting(rows, provider, now);
      SelectKeepsRouting(u, provider, now);
      RoutingChain(AfterSelect(u, provider, now), u, u);
      RoutingChain(AfterSelect(rows, provider, now), rows, u);
      RoutingChain(AfterSelect(rows, provider, now), u, AfterSelect(u, provider, now));
    case Refresh(provider, now) =>
      SelectKeepsRouting(rows, provider, now);
      RoutingChain(AfterSelect(rows, provider, now), rows, u);
    case Write(s) =>
      if IsQuota(a) {
        UnseenOp(rows, s.id, s.op);
        RoutingChain(UpdateRow(rows, s.id, s.op), rows, u);
      } else if s.Update? {
        OpKeepsRouting(rows, u, s.id, s.op);
      }
  }

  /** Erasing all quota steps from a mixed run changes no answer to an inference selection, nor any routing column. */
  lemma {:induction false} QuotaIsInvisible(rows: Rows, u: Rows, run: seq<Act>)
    requires SameRouting(rows, u)
    ensures Answers(u, WithoutQuota(run)) == Answers(rows, run)
    ensures SameRouting(AfterActs(rows, run), AfterActs(u, WithoutQuota(run)))
    decreases |run|
  {
    if run != [] {
      var a, rest := run[0], WithoutQuota(run[1..]);
      ActKeepsRouting(rows, u, a);
      if a.Ask? { SameAnswer(rows, u, a.provider, a.now); }
      if IsQuota(a) {
        QuotaIsInvisible(AfterAct(rows, a), u, run[1..]);
        assert WithoutQuota(run) == rest;
      } else {
        QuotaIsInvisible(AfterAct(rows, a), AfterAct(u, a), run[1..]);
        assert WithoutQuota(run)[0] == a && WithoutQuota(run)[1..] == rest;
      }
    }
  }

  // ---------------------------------------------------------------- quota configuration does not see inference

  ghost predicate SameQuota(rows: Rows, u: Rows) {
    && rows.Keys == u.Keys
    && forall id :: id in rows ==> rows[id].provider == u[id].provider && rows[id].quota == u[id].quota
  }

  lemma SelectKeepsQuota(rows: Rows, provider: string, now: Stamp)
    ensures SameQuota(AfterSelect(rows, provider, now), rows)
  {
  }

  lemma OpKeepsQuota(rows: Rows, u: Rows, id: nat, op: RowOp)
    requires SameQuota(rows, u)
    ensures SameQuota(UpdateRow(rows, id, op), UpdateRow(u, id, op))
  {
    if id in rows {
      assert ApplyOp(rows[id], op).quota == ApplyOp(u[id], op).quota;
    }
  }

  lemma OtherOpKeepsQuota(rows: Rows, u: Rows, id: nat, op: RowOp)
    requires SameQuota(rows, u) && !op.QuotaUpdate? && !op.QuotaRotate?
    ensures SameQuota(UpdateRow(rows, id, op), u)
  {
    if id in rows {
      assert ApplyOp(rows[id], op).quota == rows[id].quota;
    }
  }

  lemma ActKeepsQuota(rows: Rows, u: Rows, a: Act)
    requires SameQuota(rows, u)
    ensures if IsInference(a) then SameQuota(AfterAct(rows, a), u) else SameQuota(AfterAct(rows, a), AfterAct(u, a))
  {
    if a.Ask? || a.Refresh? {
      SelectKeepsQuota(rows, a.provider, a.now);
      SelectKeepsQuota(u, a.provider, a.now);
      assert SameQuota(AfterSelect(rows, a.provider, a.now), AfterSelect(u, a.provider, a.now));
    } else if a.s.Update? {
      OpKeepsQuota(rows, u, a.s.id, a.s.op);
      if IsInference(a) { OtherOpKeepsQuota(rows, u, a.s.id, a.s.op); }
    }
  }

  /** Erasing all inference steps from a mixed run leaves every quota configuration as it was. */
  lemma {:induction false} InferenceIsInvisible(rows: Rows, u: Rows, run: seq<Act>)
    requires SameQuota(rows, u)
    ensures SameQuota(AfterActs(rows, run), AfterActs(u, WithoutInference(run)))
    decreases |run|
  {
    if run != [] {
      var a, rest := run[0], WithoutInference(run[1..]);
      ActKeepsQuota(rows, u, a);
      if IsInference(a) {
        InferenceIsInvisible(AfterAct(rows, a), u, run[1..]);
        assert WithoutInference(run) == rest;
      } else {
        InferenceIsInvisible(AfterAct(rows, a), AfterAct(u, a), run[1..]);
        assert WithoutInference(run)[0] == a && WithoutInference(run)[1..] == rest;
      }
    }
  }

  // ---------------------------------------------------------------- the sidecar invariant over runs

  ghost predicate SidecarsOk(rows: Rows) {
    forall id :: id in rows ==> SidecarOk(rows[id].provider, rows[id].quota)
  }

  /** A write of the two quota statements that comes right after its read, or one that cannot mismatch the key. */
  ghost predicate Undisturbed(rows: Rows, s: Step) {
    match s
    case Insert(_, e) => SidecarOk(e.provider, e.quota)
    case Remove(_) => true
    case Update(id, op) =>
      id in rows ==>
        match op
        case QuotaUpdate(c, readFlow) =>
          ConfigOk(rows[id].provider, c)
          && (c.mode == SeparateCredentials && readFlow == c.flow && rows[id].quota.key.Some?
              ==> rows[id].quota.flow == c.flow)
        case QuotaRotate(_, readFlow) => rows[id].quota.mode == SeparateCredentials && rows[id].quota.flow == readFlow
        case _ => true
  }

  /** Any one step keeps every sidecar valid exactly when no quota write was overtaken by a change of its row. */
  lemma StepKeepsSidecars(rows: Rows, s: Step)
    requires SidecarsOk(rows)
    requires s.Insert? ==> SidecarOk(s.e.provider, s.e.quota)
    requires s.Update? && s.op.QuotaUpdate? && s.id in rows ==> ConfigOk(rows[s.id].provider, s.op.config)
    ensures SidecarsOk(NextRows(rows, s)) <==> Undisturbed(rows, s)
  {
    if s.Update? {
      if s.id in rows { UpdateKeepsSidecars(rows, s.id, s.op); }
    } else {
      assert SidecarsOk(NextRows(rows, s));
    }
  }

  lemma UpdateKeepsSidecars(rows: Rows, id: nat, op: RowOp)
    requires SidecarsOk(rows) && id in rows && (op.QuotaUpdate? ==> ConfigOk(rows[id].provider, op.config))
    ensures SidecarsOk(UpdateRow(rows, id, op)) <==> Undisturbed(rows, Update(id, op))
  {
    var e := rows[id];
    OneRow(rows, id, op);
    if op.QuotaUpdate? {
      UpdateKeeps(e.provider, e.quota, op.config, op.readFlow);
    } else if op.QuotaRotate? {
      RotateKeeps(e.provider, e.quota, op.raw, op.readFlow);
    } else {
      assert ApplyOp(e, op).quota == e.quota;
    }
  }

  lemma OneRow(rows: Rows, id: nat, op: RowOp)
    requires SidecarsOk(rows) && id in rows
    ensures SidecarsOk(UpdateRow(rows, id, op)) <==> SidecarOk(rows[id].provider, ApplyOp(rows[id], op).quota)
  {
    var v := UpdateRow(rows, id, op);
    assert v[id].provider == rows[id].provider && v[id] == ApplyOp(rows[id], op);
  }

  ghost predicate UndisturbedRun(rows: Rows, run: seq<Act>)
    decreases |run|
  {
    run == [] || ((run[0].Write? ==> Undisturbed(rows, run[0].s)) && UndisturbedRun(AfterAct(rows, run[0]), run[1..]))
  }

  lemma {:induction false} RunKeepsSidecars(rows: Rows, run: seq<Act>)
    requires SidecarsOk(rows) && UndisturbedRun(rows, run)
    ensures SidecarsOk(AfterActs(rows, run))
    decreases |run|
  {
    if run != [] {
      var a := run[0];
      if a.Write? { StepKeepsSidecars(rows, a.s); }
      RunKeepsSidecars(AfterAct(rows, a), run[1..]);
    }
  }
}
